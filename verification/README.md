# Verified model of the SVP-Chain DEX agent

The agent answers two kinds of caller. Anyone may ask what a trade would cost; a holder of an SVP-DT
credential chain may have the agent read, trade or deposit on the credential's principal's behalf,
under the agent's own operator key. This project models the logic both depend on and proves what it
promises. `dafny verify dfyconfig.toml` checks everything.

| file | what it models |
|---|---|
| `Decimal.dfy` | printing a rational at 18 digits, trimmed, and reading it back |
| `Clearing.dfy` | the clearing estimate: levels filtered and sorted, the greedy walk on mutable rationals, the summary |
| `ClearingTheorems.dfy` | what that estimate means: accounting, marginal price, optimality, monotonicity, composition, and exactly which differences between books it can see |
| `RootState.dfy` | the per-root epoch/paused cache, read and written under a lock but refreshed without it, under any interleaving of calls |
| `Delegation.dfy` | verifying a proof, building the message of each operation, choosing the fee; and `Entitled`, the declarative account of what the agent may send |
| `Service.dfy` | calls as interleaved steps over the params cache, the sequence lock, the operator's account and the broadcast log |
| `ReadTenants.dfy` | the bounded table of proof-derived tenants against a plain log of admissions, and the fan-out over tenant sources |
| `Pipeline.dfy` | one request: bearer or credential, arguments pinned to the principal, the proof injected |
| `Reads.dfy` | delegated reads as one protocol over both caches and the tenant table, under one clock: verification, then root check, then admission |
| `Registry.dfy` | the tool registry, its grouping out of a map ranged over in any order, and the card built from it |
| `Config.dfy` | what configuration is accepted, and that everything accepted is then bound |
| `Basics.dfy`, `Products.dfy`, `Pacing.dfy` | option and result types; products and quotients with the laws the walk needs; how queries may follow one another |

How it is set up:

- Where the source updates something in place, a class or a loop does so here and is proved equal to
  a function of its inputs or old state; the theorems are about those functions. `Rat` is the mutable
  `big.Rat`, so `Walk` accumulates in place and aliases the book's own numbers for `take` and `worst`;
  having no `modifies` clause, it changes no level.
- Prices and costs are compared through `Key`, which turns a price into the taker's cost, so one
  statement covers a buy (lowest asks) and a sell (highest bids).
- Goroutines are step machines: a step is what a goroutine does between two points at which others
  may run, and theorems quantify over every legal sequence of steps from a fresh start. The clock
  never goes back. Fields the text calls history record past instants, arrivals and the longest wait of an
  answer for its stamp; no step depends on them. A latency is assumed only where a lemma says `OnTime`.
- Names, limits and formats that the source spells out (actions, argument fields, tools, skills, prefixes,
  ids, caps, printed figures) are spelled out again in the theorems, so that none is defined only by itself.
- A verified chain, a queued message and a broadcast carry the call they belong to, and
  `ArrivalsAreActions` ties what a call is recorded to have come in with to the action that brought it.
- Everything outside the agent is a parameter: the functions of `Lib` (token decoding, `VerifyChain`,
  the message builders, limits, tenants), of `World` and of `Outside`, and `Rat.SetString`. Nothing is
  assumed of them beyond `BuildersFaithful` (a builder writes the owner, subaccount and action it is
  called for, and a deposit's own amount) and `VerifierSound` (what `service.go` lines 166 to 171
  and 201 to 204 have `VerifyChain` pin: depth, token lifetime, audience and expiry), each required only by the lemmas that name it.
- The account read under the sequence lock is taken to reflect every broadcast the chain accepted
  before it. Lag between mempool and committed state is outside that assumption.

Where the code is less than its comments say, and what is proved instead:

- `service.go` lines 96 to 102 call the cache TTL the bound on how long a paused or revoked root keeps
  answering reads. An entry is stamped when the answer has arrived, not when the chain gave it, so the
  bound is the TTL plus the time between the two. `BoundedStaleness` proves that bound,
  `StalenessBoundIsTight` shows it cannot be lowered by one second, and `TtlBoundsExactlyAtOnce` that
  the TTL alone is a bound if and only if that time is zero.
- `service.go` lines 87 to 90 say a governance change is missed for no more than a minute. For the same
  reason the ceilings can be a minute and that wait old: `BoundedCeilings`, `CeilingsBoundIsTight`, and
  the same equivalence.
- `reads.go` lines 83 to 87 say the root cache bounds how often the chain is asked. Two things break
  that. A call that checks a root while another call on it is between its stale check and its store
  asks as well; and a query that fails, as one for a root the chain does not know does, is not
  remembered, so the next call asks again at once. `QueryRateExact` proves these are exactly the two:
  a run is free of both if and only if the rate holds, over all queries, on every run that goes on from
  any point of it adding neither. `OverlappingCallsAllAsk` and `UnknownRootAlwaysAsked` show that with
  either there is no bound at all. What holds with failures, but without overlap, is `QueriesPaced`: an
  answered query is followed by none for a TTL. Calls on other roots do not matter.
- The params cache holds its lock across the query, so overlap cannot arise, but a failed query is not
  remembered there either. `ParamsQueriesPaced` holds in every run; the rate of all queries holds exactly
  while none fails (`ParamsRateExact`), and `FailedParamsAlwaysAsked` shows there is no bound otherwise.
- Arguments that are the JSON literal `null` leave a nil map behind, and writing the owner or the proof
  into it panics. The model reports that outcome, and `CrashesOnlyOnNull` says exactly when it arises.

## Model

| member | source | states |
|---|---|---|
| Decimal.TrimDecimal | internal/marketdata/auction.go:195-207 | the index loop computes the trimming whose laws the next rows give |
| Decimal.ContainsDot | internal/marketdata/auction.go:209-216 | true exactly when the string has a dot |
| Decimal.TrimmedDecimal | internal/marketdata/auction.go:195-207 | of "whole.frac" only trailing zeros of the fraction go, and the dot only when no digit is left behind it |
| Decimal.TrimIdempotent | internal/marketdata/auction.go:195-207 | trimming a decimal twice is trimming it once |
| Decimal.PrintedValue | internal/marketdata/auction.go:188-193 | a printed figure parses back to the value rounded at that many digits, for every value and precision |
| Decimal.PrinterAccuracy | internal/marketdata/auction.go:188-193 | reading back is off by at most half a unit in the last place, and exact if and only if the value is a multiple of that unit |
| Decimal.HalvesAwayFromZero | internal/marketdata/auction.go:188-193 | a value half way between two printable ones prints as the one further from zero, on both sides of zero |
| Decimal.PrinterMonotone | internal/marketdata/auction.go:188-193 | printing never reverses the order of two values |
| Decimal.PrintedShape | internal/marketdata/auction.go:188-207 | a printed figure has a minus sign exactly for a negative value, and behind it a plain decimal: no superfluous zero in front, no trailing fractional zero, no bare dot |
| Decimal.PlainUnique | internal/marketdata/auction.go:188-207 | two plain decimals that read back to the same value are the same string |
| Decimal.PrintedUnique | internal/marketdata/auction.go:188-207 | so a string is the printed figure if and only if it has the value's sign, is plain behind it, and reads back as the value rounded |
| Clearing.ParseLevels | internal/marketdata/auction.go:144-177 | unknown side, any malformed level, or exactly the positive levels of the crossed side, stably sorted |
| Clearing.SortLevels | internal/marketdata/auction.go:170-175 | the references come out in the order of the stable sort, their numbers untouched |
| Clearing.Walk | internal/marketdata/auction.go:88-106 | the in-place accumulators end at fill, cost, remainder and worst price as functions of book and size; they are new numbers, the worst price is a level's own, and no level is changed |
| Clearing.Slippage | internal/marketdata/auction.go:112-120 | average is cost over fill, slippage its signed distance from the touch in basis points of the touch; neither division is by zero |
| Clearing.Summarize | internal/marketdata/auction.go:122-131 | every field of the answer is taken from the figure it is named after |
| Clearing.EstimateClearing | internal/marketdata/auction.go:74-132 | the whole operation answers as its specification, errors in the source's order, and the second no-liquidity error is unreachable |
| ClearingTheorems.SortIsStable | internal/marketdata/auction.go:170-175 | the book is ordered cheapest first for a buy and dearest first for a sell, and levels of one price keep their order |
| ClearingTheorems.EstimateSucceeds | internal/marketdata/auction.go:74-86 | an estimate is given if and only if the size is positive, the side known, every entry of that side parses and one of them is liquidity |
| ClearingTheorems.EstimateRefuses | internal/marketdata/auction.go:74-86 | and each refusal is given exactly on its own condition, in the source's order: size, side, malformed entry, no liquidity |
| ClearingTheorems.WalkAccounting | internal/marketdata/auction.go:88-120 | fill is the smaller of size and depth, fully filled if and only if depth suffices, average lies between best and worst price, slippage is its distance from the best price, never negative, and zero if and only if nothing beyond the best price was taken |
| ClearingTheorems.TakersTerms | internal/marketdata/auction.go:112-120 | side by side for a buyer and a seller: touch is the best price of the book, average lies between it and the worst, slippage is the average's distance from it in basis points, signed against the taker |
| ClearingTheorems.TakeIsMin | internal/marketdata/auction.go:94-106 | what the loop fills is the smaller of the size wanted and the depth of the levels |
| ClearingTheorems.CostAtTouch | internal/marketdata/auction.go:94-106 | a fill costs its size times the touch if and only if no level beyond the touch was reached |
| ClearingTheorems.WorstIsMarginal | internal/marketdata/auction.go:59-61 | the worst price is the one at which cumulative depth first covers the fill: better prices alone do not, with it they do |
| ClearingTheorems.AllocationBound | internal/marketdata/auction.go:94-106 | no way of taking from the levels beats any reference price by more than what the levels better than it save |
| ClearingTheorems.WalkSaves | internal/marketdata/auction.go:94-106 | the walk meets that bound at its own worst price |
| ClearingTheorems.GreedyOptimal | internal/marketdata/auction.go:94-106 | among all allocations of the book with the same total, the walk costs a buyer least and earns a seller most |
| ClearingTheorems.GreedyAttained | internal/marketdata/auction.go:94-106 | the walk's cost is itself an allocation of the book in its original order |
| ClearingTheorems.QuotedAverageIsBest | internal/marketdata/auction.go:54-57 | the quoted average is the best average at which the filled size can be had: some allocation has it and none has a better one |
| ClearingTheorems.WalkComposition | internal/marketdata/auction.go:89-106 | filling one size and then another from what is left fills and costs what filling the sum does, with the second's worst price if it fills anything |
| ClearingTheorems.QuoteMonotone | internal/marketdata/auction.go:88-120 | asking for more never lowers fill or slippage and never improves average or worst price |
| ClearingTheorems.BookEquivalence | internal/marketdata/auction.go:144-177 | two books give the same estimate at every size if and only if the same total size rests at every price |
| ClearingTheorems.OrderIndependent | internal/marketdata/auction.go:139-143 | any reordering of the levels, also among equal prices, leaves every estimate as it was |
| ClearingTheorems.SplitIndependent | internal/marketdata/auction.go:144-177 | so does splitting a level in two at its price, or merging two |
| ClearingTheorems.JunkIgnored | internal/marketdata/auction.go:162-166 | a well-formed entry without positive price and size might as well not be in the book |
| ClearingTheorems.SameSideSameEstimate | internal/marketdata/auction.go:74-132 | order books whose sides both fail to parse, or both parse to the same depth at every price, get the same answer, errors included |
| ClearingTheorems.EstimateOrderFree | internal/marketdata/auction.go:139-177 | reordering the entries of an order book, malformed ones included, changes no answer |
| ClearingTheorems.EstimateSplitFree | internal/marketdata/auction.go:139-177 | nor does splitting one entry in two at its price, or merging two, on either side |
| ClearingTheorems.EstimateJunkFree | internal/marketdata/auction.go:162-166 | nor does a well-formed entry that is no liquidity |
| ClearingTheorems.PrintedEstimate | internal/marketdata/auction.go:122-131 | each printed field is the one figure of its own quantity at 18 decimals, the request is echoed, and rounding keeps average and worst in order and slippage non-negative |
| RootState.RootCache.CheckRootState | internal/delegated/reads.go:88-114 | verdict and cache of a call run alone, for every cache, answer and clock |
| RootState.VerdictMeans | internal/delegated/reads.go:88-114 | the record used, cached while younger than ten seconds, decides: a pause first, then an epoch other than the credential's; only a record that came is stored |
| RootState.AloneIsCheckOnce | internal/delegated/reads.go:88-114 | a call of the step machine, its own steps interrupted by nothing but the clock, ends with that method's verdict and cache |
| RootState.StepKeepsInv | internal/delegated/reads.go:88-114 | every step of every call, clock tick and chain change keeps: each cached or held record was given by the chain for that root, and stamped within the longest wait of that |
| RootState.RunKeepsInv | internal/delegated/reads.go:88-114 | so does every run |
| RootState.BoundedStaleness | internal/delegated/reads.go:83-87 | in every interleaving a decision is what the chain gives for the root at some instant after the cache check, or less than TTL plus latency before it: paused, another epoch, or accepted as that record says |
| RootState.StableRootDecides | internal/delegated/service.go:96-102 | once a root has kept one record over that window every decision agrees with the chain |
| RootState.RemovedRootRefuses | internal/delegated/service.go:96-102 | once a root has been gone from the chain for TTL plus latency, no call that checks it is decided |
| RootState.StalenessBoundIsTight | internal/delegated/service.go:96-102 | for every latency some run accepts a credential whose root has been paused for TTL plus latency less one second |
| RootState.TtlBoundsExactlyAtOnce | internal/delegated/service.go:96-102 | every decision of every run at a latency is within the TTL alone if and only if the latency is zero |
| RootState.StepKeepsRate | internal/delegated/reads.go:89-103 | every step that adds no overlap on the root keeps: at most one call is pending on it, queries are paced and stamps spaced, and that call or the cache accounts for the latest of both |
| RootState.QueriesPaced | internal/delegated/reads.go:89-103 | in every run without overlap on the root, whatever calls on other roots do and whatever fails, an answered query of it is followed by none for a TTL |
| RootState.StampsSpaced | internal/delegated/reads.go:89-103 | and any two successful queries of it are stamped a TTL apart for every one between them |
| RootState.SerialQueryRate | internal/delegated/reads.go:83-87 | in every such run n queries of the root, failed ones included, take a TTL for every answered one but the last |
| RootState.QueryRateExact | internal/delegated/reads.go:83-103 | a run is free of overlap on the root and of failed queries for it if and only if n queries of any kind take n - 1 TTLs on every run that goes on from any point of it adding neither |
| RootState.UnknownRootAlwaysAsked | internal/delegated/reads.go:94-98 | while the chain does not know a root, any number of calls on it, one after another and all in one second, each ask |
| RootState.OverlapBreaks | internal/delegated/reads.go:94-103 | once a call has checked the root while another was pending, at whatever stage, some clean steps put two queries in one second |
| RootState.FailureBreaks | internal/delegated/reads.go:94-98 | once a query has failed, some clean steps put another in the same second |
| RootState.OverlappingCallsAllAsk | internal/delegated/reads.go:94-103 | any number of overlapping calls on an uncached root may all ask within one instant |
| Delegation.DecodeProof | internal/delegated/service.go:147-159 | no proof, an entry that is not base64, or the proof decoded entry by entry in order |
| Delegation.CheckRedelegationTargets | internal/delegated/service.go:188-199 | passes if and only if every parent's caveat allows its child's audience |
| Delegation.VerifyProof | internal/delegated/service.go:166-179 | asks the verifier with this chain id, the clock, the chain's own depth and TTL ceilings and this agent's DID, and succeeds with its answer exactly when there is one and every hop was allowed; each refusal on its own condition |
| Delegation.UnwrapsEach | internal/operator/txsign.go:114-117 | every wrapper is seen as its inner message, every other message as itself |
| Delegation.GasFreeFor | internal/operator/txsign.go:113-119 | the loop judges the messages so unwrapped |
| Delegation.WrapperGasFree | internal/operator/txsign.go:109-112 | a lone wrapper is gas-free if and only if its inner message is a short-term order; the agent's own messages never are |
| Delegation.SignTx | internal/operator/txsign.go:38-107 | all messages in order, the account's sequence, and fee coins exactly when not gas-free and the amount is not zero; refuses no messages and an unreadable amount |
| Delegation.SignOutcome | internal/operator/txsign.go:38-65 | signing fails exactly for no messages or an unreadable fee that is due; else all messages, the sequence, and the fee coin exactly when due and not zero |
| Delegation.ExecuteOutcome | internal/delegated/service.go:293-440 | an execute operation is built exactly when its own named action and subaccount are granted, a deposit reads and is within the cap, the builder builds and the wrapper is valid; the first to fail is the refusal |
| Delegation.OwnOutcome | internal/delegated/service.go:478-529 | an own registration or update is built exactly for the operator's tenant, once the card is known and the message valid, naming the operator throughout; each refusal on its own condition |
| Delegation.ExecEntitled | internal/delegated/service.go:293-440 | whatever message an execute operation builds is the builder's for that operation and principal, under the action named for that operation in the grant, and for a deposit moves no more than the cap |
| Delegation.EntitledChain | internal/delegated/service.go:182-204 | behind such a wrapper is a chain each hop of which the hop before allowed, within the depth and lifetime ceilings it was verified under, ending at this agent, with a leaf that outlives the clock it was verified at |
| Service.ParamsCache.WalletParams | internal/delegated/service.go:130-143 | result, cached value and stamp for every cache, clock and answer; a failed query leaves the cache alone |
| Service.ParamsAloneIsOnce | internal/delegated/service.go:130-143 | the step machine, undisturbed, leaves the cache and hands the call the parameters as that method does |
| Service.StepKeepsParams | internal/delegated/service.go:130-143 | every step keeps: only the lock's holder is between check and stamp, it asks only when the last stamp is a TTL old, stamps are spaced by TTLs, and parameters cached or held are the chain's and no older than the bound |
| Service.ParamsQueryRate | internal/delegated/service.go:87-94 | in every interleaving n successful params queries take at least n - 1 TTLs |
| Service.ParamsQueriesPaced | internal/delegated/service.go:130-143 | in every interleaving an answered params query is followed by none for a TTL, and n queries, failed ones included, take a TTL for every answered one but the last |
| Service.ParamsRateExact | internal/delegated/service.go:130-143 | a run has no failed params query if and only if n queries of any kind take n - 1 TTLs on every run that goes on without one from any point of it |
| Service.FailedParamsAlwaysAsked | internal/delegated/service.go:136-139 | while the chain does not answer, any number of calls, one after another and all in one second, each ask |
| Service.BoundedCeilings | internal/delegated/service.go:87-90 | in every interleaving the ceilings a call goes on with are the chain's at some instant after its cache check, or less than TTL plus the longest wait for a stamp before it |
| Service.SlowestIsOnTime | internal/delegated/service.go:136-141 | the longest wait that bound speaks of is no longer than the latency of queries allows, so the bound is TTL plus that latency |
| Service.CeilingsBoundIsTight | internal/delegated/service.go:87-90 | for every such wait some run goes on with ceilings replaced TTL plus that wait less one second before |
| Service.TtlBoundsExactlyAtOnce | internal/delegated/service.go:87-90 | the ceilings of every call of every run are within the TTL alone if and only if no answer may wait for its stamp |
| Service.StepKeepsSequence | internal/delegated/service.go:233-252 | every step keeps: only the lock's holder is between account read and broadcast of a fee-paying transaction, and what it signed carries the account's present sequence |
| Service.WindowsDisjoint | internal/delegated/service.go:532-548 | in every interleaving no two fee-paying calls are between account read and broadcast at once |
| Service.SequencesConsecutive | internal/delegated/service.go:82-85 | every fee-paying transaction is sent at the account's sequence, and those the chain took carry consecutive sequences from the first on |
| Service.GasFreeNeverWaits | internal/delegated/service.go:233-252 | whoever holds the lock, a gas-free call can read, sign without fee and send, and disturbs neither lock nor account |
| Service.StepKeepsLocks | internal/delegated/service.go:236-240 | every step keeps: a held lock has a holder still on its way to releasing it, also when its query, account read, signing or broadcast fails |
| Service.NoDeadlock | internal/delegated/service.go:130-143 | in every reachable state an unfinished call can move, or waits for the params lock, or for the sequence lock, and the holder of that lock can |
| Service.StepLowersRank | internal/delegated/service.go:215-260 | every step of a call brings it nearer its end and no step of another sets it back, so nothing is retried |
| Service.CallsAreShort | internal/delegated/service.go:215-260 | in every run a call makes at most nine steps, its arrival included, and is over at its ninth |
| Service.ArrivalsAreActions | internal/delegated/service.go:293-297 | what a call is recorded to have come in with, and when, is what some action of the run brought |
| Service.StepKeepsSafe | internal/delegated/service.go:215-260 | every step keeps: whatever is queued, signed or sent was warranted by checks that passed, was asked for by its own call, carries the fee it should, and no call sends twice |
| Service.RunKeepsInv | internal/delegated/service.go:82-94 | all four invariants hold after every run, whatever the libraries answer |
| Service.BroadcastSafety | internal/delegated/service.go:514-628 | every transaction ever broadcast answers to one call that arrived in the run, the only one of that call; it has one message, either a wrapper for that call's own operation and proof within the effective grant, every hop allowed, a deposit within its cap, verified at a clock reading between arrival and broadcast under ceilings of the chain, or the registry message that call asked for with its own operator tenant; fee coins exactly when it pays and the fee is not zero |
| Service.BroadcastChainAlive | internal/delegated/service.go:160-199 | behind every wrapper broadcast is a chain no deeper and no longer-lived than the chain's own ceilings at the instant they were given, each child's audience allowed by its parent, ending at this agent's DID, verified with those very options at an instant between arrival and broadcast at which its leaf was alive |
| Service.ReadsVerified | internal/delegated/service.go:147-180 | a read that was authorized rests on the proof its own call brought, verified while it was under way with this agent's DID and the chain's own ceilings, and kept to them |
| Service.ReadySends | internal/delegated/service.go:233-260 | a ready message is sent: at the account's sequence, with the fee due, under the lock if it pays, and the lock is free after |
| Service.ExecuteAlone | internal/delegated/service.go:293-317 | an undisturbed execute call whose proof decodes sends exactly the message its operation builds, or ends without sending when the proof does not verify or nothing is built |
| Service.ReadAlone | internal/delegated/service.go:147-180 | an undisturbed read is verified exactly when its proof decodes and verifies |
| Service.OwnAlone | internal/delegated/service.go:559-628 | an own registration or update asked for as the operator sends its message; anyone else's ends without sending |
| ReadTenants.TenantIdWritten | internal/delegated/read_tenants.go:47-51 | an id is svpdt- and the first eight bytes of the chain hash in lower-case hexadecimal |
| ReadTenants.TenantIdsAgree | internal/delegated/read_tenants.go:47-51 | two credentials share a tenant id if and only if the first eight bytes of their chain hashes agree |
| ReadTenants.ReadTenantSource.SweepLocked | internal/delegated/read_tenants.go:88-97 | in whatever order the map is visited, exactly the expired entries go |
| ReadTenants.ReadTenantSource.Admit | internal/delegated/read_tenants.go:50-75 | the table after sweeping, refusing or storing, and the tenant context returned either way |
| ReadTenants.ReadTenantSource.LookupTenantPolicy | internal/delegated/read_tenants.go:78-86 | the stored policy exactly while its leaf token lives |
| ReadTenants.RunAgrees | internal/delegated/read_tenants.go:50-97 | after every run, live ids are tabled as last accepted and all else in the table is dead |
| ReadTenants.TableRefinesLog | internal/delegated/read_tenants.go:50-97 | after every run whose clock does not go back, a lookup answers with the last accepted admission of the id, exactly while unexpired |
| ReadTenants.SweepInvisible | internal/delegated/read_tenants.go:88-97 | sweeping changes a lookup's answer if and only if the lookup's clock is behind the sweep's and the entry expires between; so never for a later lookup |
| ReadTenants.TableBounded | internal/delegated/read_tenants.go:33-37 | no run takes the table past 4096 entries, and every id in it carries the read-tenant prefix |
| ReadTenants.AdmissionEffect | internal/delegated/read_tenants.go:58-74 | refused if and only if the id is not live and 4096 others are; no other live entry is touched; a granted one answers, until it expires, with the principal, exactly the credential's subaccounts and the kill switch off |
| ReadTenants.LookupTenantPolicy | internal/wire/wire.go:120-127 | the loop answers with the first source that has the id |
| ReadTenants.FirstHitIsFirst | internal/wire/wire.go:120-127 | a source answers exactly when it has the id and no earlier one does |
| ReadTenants.FirstHitIsUnion | internal/wire/wire.go:116-127 | that is the union of the sources as maps, earlier ones prevailing |
| ReadTenants.OrderFree | internal/wire/wire.go:277-286 | when no id is in two sources every permutation of them answers alike |
| ReadTenants.WiredSources | internal/wire/wire.go:277-286 | the two prefixes make it so for the sources wired here, and an admitted credential resolves through the fan-out to its own policy |
| Pipeline.PinArgsToPrincipal | internal/delegated/reads.go:120-164 | refuses, each for its own reason, another owner, an ungranted subaccount and undecodable values; otherwise the owner is the principal and every other key is as it was |
| Pipeline.EqualStrings | internal/a2aserver/delegation.go:105-115 | equality of the two lists |
| Pipeline.InjectProof | internal/a2aserver/delegation.go:72-103 | refuses a different proof; otherwise the proof is the message's and every other key is as it was |
| Pipeline.DelegationFromMessage | internal/a2aserver/delegation.go:35-64 | no entry is no credential; an entry that is malformed, empty or has an empty token is that error, never dropped |
| Pipeline.AuthorizeRead | internal/delegated/reads.go:60-81 | the first check to fail is the refusal given, with the root's verdict where it is that; the grant and pinned arguments when none fails |
| Pipeline.Handle | internal/a2aserver/executor.go:94-178 | the outcome of a request, and the tenant table changed by one admission exactly when a delegated read was authorized |
| Pipeline.RewritesCommute | internal/a2aserver/executor.go:154-178 | pinning and injecting are each idempotent; in either order both refuse, both panic, or both give the same arguments |
| Pipeline.DelegatedRead | internal/a2aserver/executor.go:154-178 | a covered read with a credential and no bearer reaches its operation if and only if the credential verifies, grants account queries, has a live root and covers the arguments; it then runs as the principal, owner pinned, subaccount granted, proof the message's, every other key unchanged |
| Pipeline.CoveredTools | internal/delegated/reads.go:29-44 | a tool is covered exactly when it is one of nine by name; two name their owner in owner, seven in address; all but get_balance are held to the subaccount caveat |
| Pipeline.ReadNamesPrincipal | internal/delegated/reads.go:128-157 | a delegated read that is called names its principal in its own tool's field, and a granted subaccount unless it is get_balance |
| Pipeline.CalledExactly | internal/a2aserver/executor.go:94-181 | for every request, with or without entry, bearer or credential: when its operation is called, with which arguments, as which tenant, and what is admitted |
| Pipeline.OrdinaryCall | internal/a2aserver/executor.go:172-181 | a request without a delegation entry is called with its arguments as they came, as the bearer's tenant if one resolved, nothing admitted |
| Pipeline.HandleRefuses | internal/a2aserver/executor.go:101-148 | each refusal before authorization is given exactly on its own condition, in order; so is the legacy form taken |
| Pipeline.AuthorizeRefuses | internal/delegated/reads.go:60-157 | so is each refusal of a delegated read, by the tool's own owner field |
| Pipeline.InjectRefuses | internal/a2aserver/delegation.go:72-103 | so is each refusal of the injection |
| Pipeline.BearerWins | internal/a2aserver/executor.go:154-158 | with a resolved bearer no credential is admitted, nothing is pinned and the bearer's tenant stays |
| Pipeline.ProofIsTheMessages | internal/a2aserver/delegation.go:66-71 | no operation runs under a chain other than the one the message carries |
| Pipeline.CrashesOnlyOnNull | internal/delegated/reads.go:121-140 | handling panics if and only if a rewrite is due and the arguments are the literal null |
| Pipeline.DelegatedReadTenant | internal/a2aserver/executor.go:162-167 | the tenant of a delegated read resolves, until the leaf expires and unless the table was full, to the principal and exactly the credential's subaccounts |
| Pipeline.UnknownKey | internal/toolbridge/adapter.go:82-101 | arguments that are no object are refused; otherwise, in whatever order keys are visited, one is reported if and only if some key is not allowed, and then one such |
| Pipeline.InjectionKeepsStrictness | internal/a2aserver/executor.go:172-178 | injecting the proof neither makes accepted strict arguments unacceptable nor the reverse |
| Reads.RunsProject | internal/delegated/reads.go:60-81 | what either cache does in a joint run is a run of that cache alone, so every theorem above carries over |
| Reads.StepKeepsTied | internal/delegated/reads.go:65-75 | every joint step keeps: both caches read one clock, a root check belongs to a verified call and follows that verification, an admission to a call whose root was accepted and follows that check, and the table is what those admissions make it |
| Reads.VerifiedChecks | internal/delegated/reads.go:65-75 | a verified call may check its root, for the credential's root and epoch, exactly when the grant covers query.account |
| Reads.AcceptedIsAdmitted | internal/a2aserver/executor.go:162-167 | a checked call is admitted exactly when its root was accepted, and unless the table is full answers as its principal |
| Reads.DelegatedReadRests | internal/a2aserver/executor.go:154-170 | end to end, whatever interleaves: a read that reaches its operation rests on its message's tokens, brought by a call of the run and verified at a clock reading under ceilings of the chain, and on that call's own root check, made later by the same clock, the root at the credential's epoch and not paused within the staleness bound |
| Reads.AnsweredTenantRests | internal/delegated/read_tenants.go:77-86 | whatever policy the tenant table answers with is a live credential's own, on a grant verified, then root-checked, then admitted by one call of the run |
| Registry.Registry.Add | internal/toolbridge/adapter.go:153-158 | a duplicate tool is refused and changes nothing, any other is added and no other operation touched |
| Registry.Registry.BySkill | internal/toolbridge/adapter.go:177-186 | in whatever order both maps are visited, each skill with a tool gets exactly its tools, ascending |
| Registry.SortAscending | internal/toolbridge/adapter.go:182-184 | sorting distinct names gives them in strictly ascending order, none lost or added |
| Registry.LessIsDictionary | internal/toolbridge/adapter.go:182-184 | the order is the dictionary's: by the first differing character, a prefix first |
| Registry.AscendingUnique | internal/toolbridge/adapter.go:182-184 | an ascending list is determined by its members |
| Registry.GroupingUnique | internal/toolbridge/adapter.go:177-186 | a registry has one grouping, so the order of iteration cannot show |
| Registry.GroupingPartitions | internal/toolbridge/adapter.go:175-186 | the groups are non-empty, free of duplicates, disjoint, and cover the registered tools |
| Registry.BuildAgentCard | internal/a2aserver/card.go:181-210 | without a registry the two legacy skills; with one, the list over its grouping, naming a tool under a skill if and only if the skill is described and the tool registered under it |
| Registry.CardMembers | internal/a2aserver/card.go:187-210 | for any skill list, the card names a tool under a skill if and only if the skill is described and the tool registered under it |
| Registry.LegacyCard | internal/a2aserver/card.go:190-195 | without a registry the card lists exactly market data and execution |
| Registry.SkillsDescribed | internal/a2aserver/card.go:42-176 | the skills a card can describe are twelve by name |
| Registry.CardKeepsOrder | internal/a2aserver/card.go:187-210 | a full card keeps the order skills are described in and shows each with all its tools |
| Registry.CardIsDispatchTable | internal/a2aserver/server.go:60-70 | the card hashed and the card served agree, and name a tool under a skill if and only if a request for the pair passes the dispatch checks and the skill is described |
| Config.Validate | internal/config/config.go:228-266 | accepts if and only if the declarative predicate holds |
| Config.AcceptedMeans | internal/config/config.go:228-375 | what is accepted, setting by setting |
| Config.AddressMeans | internal/config/config.go:287-289 | an address is forty hexadecimal characters, with or without 0x or 0X in front |
| Config.AcceptedAddresses | internal/config/config.go:268-375 | every address of an accepted configuration is one, and there is an endpoint to reach it |
| Config.ValidateSwap | internal/config/config.go:358-375 | router and wrapped token both or neither, both valid, with an EVM endpoint |
| Config.ValidateFamily | internal/config/config.go:328-354 | absent, or a valid address with an EVM endpoint |
| Config.ValidateBridge | internal/config/config.go:270-294 | the count accepts exactly all or none of the three, valid and with an EVM endpoint |
| Config.ValidateForeignChains | internal/config/config.go:299-326 | accepts if and only if there are none, or the bridge is set and ids are non-zero, not home and pairwise distinct, each with endpoint and valid address |
| Config.BuildForeign | internal/wire/wire.go:216-240 | succeeds if and only if every declared chain resolves, binds and dials, with the map the loop fills |
| Config.LastDeclaredWins | internal/wire/wire.go:217-239 | the map holds the last chain declared under each id |
| Config.BuildFamilies | internal/wire/wire.go:158-242 | succeeds if and only if everything configured can be reached, with the bindings wired |
| Config.ForeignMapComplete | internal/wire/wire.go:217-239 | with distinct ids the map has one entry per declared chain, each its own |
| Config.AcceptedIsBound | internal/wire/wire.go:158-242 | for an accepted configuration no configured family is skipped, no declared chain overwritten, and the home chain is not among them |

## Left out

- Cryptography, token decoding and the inside of `VerifyChain`, including key resolution: an oracle with the contract the service documents.
- The message builders, limits, policy engine and bearer stores: oracles. The bearer a request resolves to is a given of the pipeline.
- Protobuf, `Any` packing, sign bytes, account number, gas limit and signatures: a transaction is its messages, sequence and fee coins.
- `Rat.SetString` beyond plain decimals: the estimate takes an arbitrary partial reading of strings; fractions and exponents have no reading of their own.
- The sorting algorithms of Go's `sort` package: replaced by an insertion sort with the same stable result.
- Machine integers: sequences, epochs, ids and seconds are unbounded, except that a subaccount argument must fit 32 bits.
- Lag between the mempool and the account query, and an account used by another process: excluded by the stated assumption on the account read.
- Error wording, result payloads and transaction hashes: an error is its kind.
- JSON text, case-insensitive matching and repeated keys: arguments are finite maps, and a value is seen as far as the rewrites decode it; an array with null elements counts as its decoded strings.
- The market-data queries behind the legacy form, apart from the estimate: forwarding.
- HTTP, A2A events, task state, server start-up and shutdown, and `cmd`: transport.
- `Identity`, the endpoint, capabilities, metadata and public key of registration messages, and the choice of bond: no property here rests on them. A registration is modelled with any bond the environment supplies.
- The card's prose, interfaces and extensions: only which skills it lists with which tools. The closures that adapt handlers, `jsonKeysOf` and `keyList` are not modelled beyond the key check.
- `ApplyDefaults`, `Load` and TOML decoding: defaults filled in before validation.
- `agentchain` and `agentrest`: thin forwarding.
