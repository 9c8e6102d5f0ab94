# Verified core of an LLM API gateway

A Dafny model of the stateful parts of the gateway, and proofs about them: the quota ledger, the two
rate limiters, channel routing, stream translation, and image token arithmetic. Check it with
`dafny verify dfyconfig.toml`.

How to read it: code that changes state is a class or a method, and its `ensures` ties the new state to
a specification function of the old one. The lemmas state what the program promises about those
functions, mostly over whole histories, over all interleavings, or against an independent reference.

## What is modelled

**Rate limiters.** `SlidingWindow` holds the policy and a reference limiter that never forgets a grant.
`InMemoryRateLimiter` (a bounded queue for each key, and a cleaner) and `RedisRateLimiter` (a Redis list
for each key, with an expiry that starts again on every request) both decide like the reference, although
they forget at different moments. Times are milliseconds; the in-memory limiter cuts them to seconds.

**Quota ledger.** `Database` has the columns and their atomic additions, `BatchUpdater` the five delta
stores and the refinement of direct updates, `Quota` the operations on users, tokens and channels in both
modes, `Pricing` the hold and the price, `Billing` the life of one text, audio or image
request, and `RelayRetry` a request with retries. `Ledger` runs any number of text and audio requests at
once, one database statement at a time, `BatchedLedger` and `BatchedOverdraft` do so with batching on,
`SoloRun` shows that the statements of a request alone have the effect of its handler, and `Overdraft` and
`OverdraftReached` say what the gap between check and statement can cost. `Redemption` has the codes.

**Channel routing.** `Abilities` has the two tables, what each operation does to them, and exactly which
operations keep them in step; `ChannelStore` runs the operations step by step. `ChannelCache` builds the
in-memory index and compares it with the database queries, and `RelayRouting` says which priorities the
retries of a request reach over it. `Metric` has the failure windows that disable channels.

**Streams.** `ClaudeStream` translates a Claude answer in one piece and as a stream, and puts the stream
together again as a client would. `Tokenizer` has the three split functions and the scanner around them.
`EventStream` prints server-sent events and parses them as section 9.2.6 of the WHATWG HTML Standard
says. `Pipeline` puts the three together, from the body of an answer to what a client sees.

**Images.** `ImageTokens` has the two scalings and the tile count.

`Wrappers`, `Collections` and `Strings` are helpers.

## Where the code does not do what one would expect

Each of these is a theorem below, and where things can go well, so is the exact condition.

- The limiters break their own window when a duration is longer than the expiration (by more than one
  second in memory): `SafeIffDurationFits` in both modules.
- The limiters disagree on some trace as soon as requests of a key may fall on two different milliseconds
  of a second, and on none otherwise: `AgreeIffOnePhase`. Even then Redis is never ahead: `RedisNeverAhead`.
- A text request keeps its hold for ever when there is no adaptor, when its conversion fails, when the
  request cannot be sent, or when the answer has no usage: `ForgetsHoldIff`. With retries every such
  attempt keeps another hold, and an audio or image answer that is paid for and cannot be delivered is
  tried again. A request pays just once exactly when no failed attempt leaks in one of these ways:
  `RunCosts`, `FailureCosts`, `PaysForLastIff`.
- Lower priorities are tried only from the second retry on: `AttemptsDescend`, `CanDescendIff`.
- Requests that check a balance before any of them takes its hold overdraw it, n of them by n - 1 holds:
  `UserOverdraftReached`, `TokenOverdraftReached`. Only one request at a time, or none with a hold, is safe:
  `UserNeverOverdrawnIff`, `TokenNeverOverdrawnIff`. With batching on not even that is:
  `BatchingOverdraws`.
- A channel that lists a group twice is stored without any abilities, and unless another channel has the
  group, the next build of the index panics: `GroupTwiceStored`, `StepConsistentIff`, `InitChannelCache`.
- Enabling a channel after the disabled ones were deleted enables abilities of a channel that does not
  exist, and so does updating a missing channel: `EnabledAfterDeletion`, `StepConsistentIff`.
- The index and the query pick from different channels when priorities differ and none is above 0:
  `FirstPickAgreesIff`.
- A code that is redeemed for a user who does not exist is used up and pays nobody: `PaidIsUsedIff`.
- The streamed and the one-piece translation differ when text follows the first block, when a tool other
  than the last sends no arguments, when arguments end with an empty fragment, or when the stop reason is
  the word null: `StreamAgreesIff`.
- An image whose short side scales to nothing has no tiles at all: `NoTilesIff`. The condition is for exact
  arithmetic; a float64 can cut a side of exactly one pixel to nothing, as at 49 by 100352.

## Model

Methods that only tie a single statement of the code to its specification have no row: the Redis commands,
the deletion of abilities and the computing of the price.

| member | source | states |
|---|---|---|
| SlidingWindow.SpacedIffSafe | common/rate-limit.go:51-62 | keeping `duration` between a grant and the one `max` before it is the same as at most `max` grants in every half-open window |
| SlidingWindow.GreedyOptimal | common/rate-limit.go:51-62 | no schedule that respects every window has its k-th grant before the reference limiter has, for any k |
| SlidingWindow.RefusesIffWindowFull | common/rate-limit.go:56-61 | a refusal means exactly that the last `duration` holds `max` grants |
| SlidingWindow.RemembersDecides | common/rate-limit.go:48-62 | a tail of the history that is long enough decides like the whole history, and stays long enough |
| InMemoryRateLimiter.Limiter.Init | common/rate-limit.go:14-26 | only the first call takes effect: an empty store, and a cleaner exactly for a positive expiration |
| InMemoryRateLimiter.Limiter.Request | common/rate-limit.go:45-70 | the answer and the whole new store, other keys untouched, and no queue is ever left empty |
| InMemoryRateLimiter.Limiter.ClearExpiredItems | common/rate-limit.go:31-40 | exactly the queues whose last grant is older than the expiration go, the others stay as they are |
| InMemoryRateLimiter.GrantsAreGreedy | common/rate-limit.go:28-70 | on any trace with any cleaner passes the grants of a key are those of the limiter that never forgets |
| InMemoryRateLimiter.AnswersAreAdmissions | common/rate-limit.go:45-70 | every answer is the one the full history would give |
| InMemoryRateLimiter.RefusedIffWindowFull | common/rate-limit.go:45-70 | a request is refused if and only if the `duration` seconds up to it already hold `max` grants of its key |
| InMemoryRateLimiter.GrantsOptimal | common/rate-limit.go:28-70 | no schedule within the policy grants its k-th request earlier, whatever the cleaner does |
| InMemoryRateLimiter.GrantsSafe | common/config/config.go:119-138 | no window of a key holds more than `max` grants when the duration fits the expiration |
| InMemoryRateLimiter.SafeIffDurationFits | common/config/config.go:119-138 | the window holds on all histories if and only if duration <= expiration + 1; otherwise a trace that breaks it is built |
| RedisRateLimiter.Limit | middleware/rate-limit.go:19-63 | the answer and the whole state of Redis after one request, refusals and server errors included |
| RedisRateLimiter.GrantsAreGreedy | middleware/rate-limit.go:19-63 | although every request restarts the expiry, the grants are those of the limiter that never forgets |
| RedisRateLimiter.AnswersAreAdmissions | middleware/rate-limit.go:19-63 | every answer is the one the full history would give, and no request ends in a server error |
| RedisRateLimiter.LimitersAgree | middleware/rate-limit.go:19-72 | both limiters answer every request alike on traces whose request times are whole seconds apart, with any cleaner schedule |
| RedisRateLimiter.LimitersDifferOutOfPhase | middleware/rate-limit.go:42-52 | for every policy with a duration and any two phases a < b: after a full window at b, memory grants a request at phase a that Redis refuses |
| RedisRateLimiter.NoDurationAgrees | middleware/rate-limit.go:52-60 | without a duration both limiters grant everything |
| RedisRateLimiter.AgreeIffOnePhase | middleware/rate-limit.go:19-72 | for every policy and every set of phases: both answer alike on all traces with these phases if and only if there is at most one of them, or no duration |
| RedisRateLimiter.RedisNeverAhead | middleware/rate-limit.go:19-72 | on every trace the k-th grant of Redis is in no earlier second than the k-th grant in memory |
| RedisRateLimiter.LastRequestSetsExpiry | middleware/rate-limit.go:35-60 | after any trace a key expires one expiration after its last request, granted or refused |
| RedisRateLimiter.GrantsSafe | middleware/rate-limit.go:19-63 | no window, in milliseconds, holds more than `max` grants |
| RedisRateLimiter.SafeIffDurationFits | common/config/config.go:119-138 | the window holds on all histories if and only if duration <= expiration |
| BatchUpdater.EffectiveDelta | model/utils.go:38-78 | a delta counts the same pending, arriving now, or arrived before |
| BatchUpdater.StepRefines | model/utils.go:38-78 | a swap or a row update of the updater never changes row plus pending; a record changes it like a direct update |
| BatchUpdater.BatchedRefinesDirect | model/utils.go:38-78 | for every interleaving of records, swaps and row updates, each row of the five counters plus what is pending is the row of the direct run |
| BatchUpdater.DrainedRowsAreDirect | model/utils.go:38-78 | once the stores are drained the rows are those of the direct run |
| Quota.QuotaStore.AddNewRecord | model/utils.go:38-46 | the buffered effect is one addition to the counter, and no other store changes |
| Quota.QuotaStore.BatchUpdate | model/utils.go:48-78 | a pass empties every store and leaves the rows where direct updates would have put them |
| Quota.QuotaStore.ApplyStore | model/utils.go:55-75 | applying a swapped store key by key, in any order, loses and repeats nothing |
| Quota.QuotaStore.IncreaseUserQuota | model/user.go:363-377 | negative amounts are refused; otherwise the balance grows, with the same effect in both modes |
| Quota.QuotaStore.DecreaseUserQuota | model/user.go:379-393 | negative amounts are refused; otherwise the balance falls, with the same effect in both modes |
| Quota.QuotaStore.IncreaseTokenQuota | model/token.go:173-193 | remaining quota grows and used quota falls by the same amount |
| Quota.QuotaStore.DecreaseTokenQuota | model/token.go:195-215 | remaining quota falls and used quota grows by the same amount |
| Quota.QuotaStore.UpdateUserUsedQuotaAndRequestCount | model/user.go:400-437 | used quota grows by the amount and the request count by one, in both modes |
| Quota.QuotaStore.UpdateChannelUsedQuota | model/channel.go:201-214 | the used quota of the channel grows by the amount, in both modes |
| Quota.QuotaStore.PreConsumeTokenQuota | model/token.go:217-280 | it succeeds exactly when the rows show the token and its owner can afford it, and then charges both or, for an unlimited token, only the owner |
| Quota.QuotaStore.PostConsumeTokenQuota | model/token.go:282-303 | charges or gives back by sign; only a missing token fails, and then nothing changes |
| Quota.ChargesAddUp | model/token.go:217-303 | charges of a token add up, so that a hold and its refund cancel, for all amounts and all tokens |
| Quota.ChargeMoves | model/token.go:217-303 | a charge moves the balance of the token's owner and, for a limited token, both of its columns, by just the amount, and no other cell of the tables |
| Pricing.HoldCoversPrice | relay/controller/helper.go:60-66 | the final price never exceeds the hold when completions are no dearer than prompts and usage keeps within what was asked |
| Pricing.ExcessBounded | relay/controller/helper.go:102-116 | with completion ratio cr >= 1 the price exceeds the hold by less than (cr - 1) * max_tokens * ratio + 2 |
| Pricing.PriceMonotone | relay/controller/helper.go:102-116 | the price is never negative and grows with either token count |
| Pricing.PriceZeroIff | relay/controller/helper.go:107-115 | the price is zero if and only if the ratio or the token total is zero |
| Pricing.PriceIsCostRoundedUp | relay/controller/helper.go:102-115 | the price is at least what prompt and completion tokens cost at their ratios, and less than one unit above it unless it is the least price 1 |
| Pricing.HoldIsWorthCutOff | relay/controller/helper.go:60-66 | the hold estimate is the worth of the configured, counted and asked tokens, cut off by less than one unit |
| Billing.PreConsumeQuota | relay/controller/helper.go:68-95 | it fails without touching the accounts, or takes the hold that the trust rule leaves |
| Billing.HoldIs | relay/controller/helper.go:68-95 | who is refused, who is trusted without a hold, and whose hold is the whole estimate, told from balances and token rows |
| Billing.ReturnPreConsumedQuota | relay/billing/billing.go:11-21 | gives the hold back to user and token |
| Billing.Settle | relay/controller/helper.go:116-140 | after hold and settlement the accounts are charged the price, and user and channel counters have booked it |
| Billing.HeldThenCharged | relay/controller/helper.go:88-120 | hold and settlement together charge exactly the price |
| Billing.HeldThenReturned | relay/controller/text.go:73-84 | hold and refund together change nothing |
| Billing.RelayTextHelper | relay/controller/text.go:46-87 | all that a text request does to the accounts is told by its outcome: nothing, exactly its price, or its forgotten hold |
| Billing.FinishText | relay/controller/text.go:55-87 | which exits refund, which settle and which keep the hold |
| Billing.TextExits | relay/controller/text.go:55-87 | exit by exit: the hold is kept exactly without an adaptor, with a failed conversion or request, or without usage; given back exactly on an upstream or response error; settled at the price of the usage otherwise |
| Billing.SettledMoves | relay/controller/helper.go:116-140 | a settled request takes its price from the user and adds it to the used quotas of user and channel, with one more request; a refunded or rejected one changes nothing |
| Billing.RelayAudioHelper | relay/controller/audio.go:60-110 | an audio request charges exactly its quota or leaves the accounts as they were; no exit keeps a hold |
| Billing.SomeBooked | relay/billing/billing.go:23-48 | audio and image settlement books nothing for a price of zero and is a settlement in full otherwise |
| Billing.RelayImageHelper | relay/controller/image.go:174-237 | an image request holds nothing and charges exactly its price, when the answer is to be paid for, or leaves the accounts as they were |
| Ledger.BalancesFollowPhases | relay/controller/text.go:46-87 | in every reachable state of every interleaving each balance is its start plus top-ups plus what the phases of the requests account for |
| Ledger.UserQuotaConserved | relay/controller/helper.go:68-141 | quota + used quota + holds not given back is everything the user was granted, in every reachable state |
| Ledger.TokenQuotaConserved | model/token.go:184-215 | remaining + used quota of a token is constant in every reachable state |
| Ledger.FinishedQuotaConserved | relay/controller/text.go:46-87 | when all requests are done only the forgotten holds are missing |
| Ledger.ForgetsHoldIff | relay/controller/text.go:55-87 | in every reachable state a request is done with its hold kept if and only if it is a text request that some earlier step took out of its upstream call without an adaptor, by a failed conversion or request, or without usage; and what it keeps is what it held then |
| Ledger.FailedHasNoShare | relay/controller/text.go:73-84 | over any run, a request that an upstream or response error took out of its call and that is finished is refunded, with no share in any account |
| Ledger.AudioForgetsNothing | relay/controller/audio.go:93-110 | no run has an audio request that keeps its hold |
| BatchedLedger.BalancesFollowPhases | model/utils.go:38-78 | with batching on, in every reachable state of every interleaving of requests, records, recorded top-ups, redemptions, swaps and row updates: row + pending + not yet recorded is the start plus all grants plus what the phases account for, for all six columns |
| BatchedLedger.UserQuotaConserved | model/user.go:363-437 | with batching on, quota + used quota + holds not given back, with all that is pending for them, is everything the user was granted |
| BatchedLedger.TokenQuotaConserved | model/token.go:173-215 | with batching on, remaining + used quota of a token, with all that is pending for them, is constant |
| BatchedLedger.SettledQuotaConserved | model/utils.go:48-78 | when all requests are done and the stores are drained, only the forgotten holds are missing from the rows |
| SoloRun.Completed | relay/controller/text.go:46-87 | a request alone always comes to its end |
| SoloRun.CompletedIsRun | relay/controller/text.go:46-87 | running a request to its end is a run of the ledger |
| SoloRun.TextRunsLikeHandler | relay/controller/text.go:46-87 | the statements of a text request, one by one, have exactly the effect and the outcome of its handler, on every exit |
| SoloRun.AudioRunsLikeHandler | relay/controller/audio.go:60-110 | the same for an audio request, deferred rollback and settlement included |
| Overdraft.OverdraftBounded | model/token.go:217-280 | with at most n requests between check and statement, and holds of at most A, a user's or a limited token's quota stays >= -(n-1)*A |
| OverdraftReached.UserOverdraftReached | model/token.go:217-280 | for every n and every hold A an orderly run takes a user from A to exactly -(n-1)*A |
| OverdraftReached.TokenOverdraftReached | model/token.go:217-280 | the same for a limited token |
| OverdraftReached.UserNeverOverdrawnIff | model/token.go:217-280 | no orderly run of n requests with holds of at most A overdraws a user if and only if n is 1 or A is 0 |
| OverdraftReached.TokenNeverOverdrawnIff | model/token.go:217-280 | the same for a token |
| BatchedOverdraft.BatchingOverdraws | model/token.go:217-280 | with batching on there is no bound: for every k and every hold A requests that go one by one take a user from A to -(k-1)*A, while the row still shows A |
| RelayRetry.ShouldRetryIff | controller/relay.go:105-122 | a retry is allowed if and only if the channel is not pinned and the status is neither 400 nor 2xx |
| RelayRetry.RelayHelper | controller/relay.go:26-43 | one attempt of any of the four kinds: its outcome, failure and status told from the hold it was given and the way it ended, and its whole effect on the accounts |
| RelayRetry.AttemptEnds | relay/controller/text.go:45-87 | outcome, failure and status of an attempt for each way it can end, for all four kinds of request |
| RelayRetry.Relay | controller/relay.go:45-103 | every attempt but the last failed; the channels are the picks without repeats, all of them if none succeeds; the accounts are what the attempts did in turn; with batching off each hold is told from the accounts as the attempts before had left them |
| RelayRetry.DifferentChains | controller/relay.go:70-79 | at most one attempt more than picks, and never the same channel twice in a row |
| RelayRetry.OneMorePick | controller/relay.go:70-79 | one more pick is one more attempt exactly when it differs from the pick before it, and no pick counts after a failing one |
| RelayRouting.AttemptsServe | controller/relay.go:70-83 | every attempt goes to an enabled channel that lists group and model |
| RelayRouting.AttemptsDescend | controller/relay.go:71-71 | when priorities differ and the top is above 0, the request goes to a top channel and every attempt from the third on to one below |
| RelayRouting.LoneTopTriedOnce | controller/relay.go:77-79 | a top channel that is alone is tried once; every retry goes below it |
| RelayRouting.CanDescendIff | controller/relay.go:70-79 | a channel below the top priority is within reach if and only if there are at least two retries |
| RelayRetry.StatusSendsOn | controller/relay.go:105-122 | which failures are tried again, by how they ended: a refused hold, a failed conversion or request always; no adaptor never; an upstream error unless its own status is 400 or 2xx |
| RelayRetry.RetriedIff | controller/relay.go:66-79 | over the runs of `Relay`: a failed first attempt is followed by another if and only if the channel is not pinned, the attempt ended in a way that is tried again, and some pick is another channel |
| RelayRetry.RunCosts | controller/relay.go:54-91 | user and token pay for a request with retries the sum of what its attempts cost |
| RelayRetry.FailureCosts | relay/controller/text.go:55-84 | a failed attempt costs something if and only if it leaks, and then its whole hold on an exit that forgets it, or the whole price of an answer that is paid for and not delivered |
| RelayRetry.PaysForLastIff | controller/relay.go:70-91 | a request pays just for its last attempt if and only if no failed attempt before it leaks, a condition on how each ended and what it held |
| RelayRetry.UnsettledFailures | controller/relay.go:70-91 | with failures that are not settled every account is as after the last attempt alone and one charge of what the failures cost; with refunding failures as after the last attempt alone |
| Redemption.Redemptions.Redeem | model/redemption.go:54-90 | accepted exactly for an enabled code and a non-zero user id; code and balance change together, otherwise nothing does |
| Redemption.CodesKept | model/redemption.go:68-84 | over any run a code changes only from enabled to used, and its quota never |
| Redemption.EachCodeOnce | model/redemption.go:54-90 | over any run no code is accepted twice, and the accepted codes are exactly those that became used |
| Redemption.EnabledCodeIsUsed | model/redemption.go:54-90 | over any run an enabled code called for by a user is accepted then, pays its worth to that user, and is used at the end; any other call changes nothing |
| Redemption.PaidIsUsedIff | model/redemption.go:76-83 | all users are paid exactly what the used codes were worth if and only if no accepted call is for a missing user, unless the code is worth nothing |
| Redemption.BalancesGrow | model/redemption.go:76-79 | the balances of any set of users grow by what the accepted calls for them are worth |
| Strings.SplitJoins | model/ability.go:54-56 | splitting loses nothing, and no piece has a separator |
| Abilities.CreatedIff | model/ability.go:70-70 | an insertion of several rows succeeds exactly when no key is repeated or taken, and then adds just these |
| Abilities.KeyListDistinct | model/ability.go:53-71 | the rows built for a channel are groups times deduplicated models, and repeat a key exactly when a group is repeated |
| Abilities.UpdateRepairs | model/channel.go:137-146 | an update that is not refused puts the abilities of its channel right, whatever they were, and touches no other channel |
| Abilities.UpdateArrives | model/channel.go:137-146 | each field of the stored row is the given one if it was given and the old one otherwise, and the abilities of the channel are those of just that row |
| Abilities.MissingUpdateAdds | model/channel.go:137-146 | an update of a missing channel stores no row, but leaves it with just the abilities that the update lists, enabled by the given status |
| Abilities.DeletionErases | model/channel.go:168-176 | a deleted id has no row and no ability, everything else is as before, and id 0 deletes nothing |
| Abilities.InsertionStores | model/channel.go:85-98 | which ids an insertion takes, which rows it stores with which defaults, that old rows stay, and which abilities there are when it succeeds |
| Abilities.InsertionStops | model/channel.go:85-98 | new channels have just their abilities up to the first that lists a group twice; that one and all later ones have none |
| Abilities.BulkDeletionKeeps | model/channel.go:221-224 | exactly the rows whose status is neither 2 nor 3 stay, as they are, and no ability goes |
| Abilities.StatusArrives | model/channel.go:190-199 | one row gets the status and the abilities of its id whether that is enabled; nothing else changes |
| Abilities.StepConsistentIff | model/channel.go:85-224 | an insertion, update, deletion, status change or bulk deletion leaves the tables in step if and only if a condition on its arguments and the old tables holds |
| Abilities.RunConsistentIff | model/channel.go:85-224 | every prefix of a run leaves the tables in step if and only if every operation met its condition |
| Abilities.BatchInsertedConsistentIff | model/channel.go:85-98 | new channels have their abilities, and the insertion reports success, exactly when none lists a group twice |
| Abilities.UpdatedConsistentIff | model/channel.go:137-146 | when an update leaves the tables in step, for existing and missing channels |
| Abilities.StatusSetConsistentIff | model/channel.go:190-199 | when a change of status leaves the tables in step, for existing and missing channels |
| Abilities.DisabledDeletedConsistent | model/channel.go:221-224 | deleting the disabled channels leaves no enabled ability behind |
| Abilities.EnabledAfterDeletion | model/channel.go:190-224 | disabling, bulk deletion and a late enabling leave enabled abilities without a channel |
| Abilities.GroupTwiceStored | model/channel.go:127-135 | an insertion that fails for a repeated group has already stored the row |
| ChannelStore.DeDuplication | common/utils/array.go:3-13 | the same elements, each once, in any order |
| ChannelStore.Store.AddAbilities | model/ability.go:53-71 | the nested loops add all abilities of the channel or, on a clash, none |
| ChannelStore.Store.UpdateAbilities | model/ability.go:79-92 | the old abilities go even when the new ones are refused |
| ChannelStore.Store.UpdateAbilityStatus | model/ability.go:94-96 | only the flag of the channel's abilities changes |
| ChannelStore.Store.BatchInsertChannels | model/channel.go:85-98 | all rows are stored; abilities are added up to the first channel that is refused |
| ChannelStore.Store.AddAllAbilities | model/channel.go:91-97 | abilities of new channels are added one channel after the other, up to the first that is refused |
| ChannelStore.Store.Insert | model/channel.go:127-135 | the same as a batch of one |
| ChannelStore.Store.Update | model/channel.go:137-146 | fields left out stay as they were, and the abilities are rebuilt from the stored row |
| ChannelStore.Store.Delete | model/channel.go:168-176 | row and abilities go together |
| ChannelStore.Store.UpdateChannelStatusById | model/channel.go:190-199 | row and abilities get the status together, as far as they exist |
| ChannelStore.Store.DeleteDisabledChannel | model/channel.go:221-224 | the rows of both disabled statuses go and are counted |
| ChannelCache.Cache.InitChannelCache | model/cache.go:173-217 | panics exactly when an enabled channel lists a group that no ability has; otherwise each list is a sorted permutation of the channels put under it |
| ChannelCache.AddModels | model/cache.go:193-199 | one entry more for each occurrence of a model |
| ChannelCache.Add | model/cache.go:190-201 | one entry more for each occurrence of group and model, and nothing else |
| ChannelCache.SortModels | model/cache.go:204-210 | every list becomes a sorted permutation of itself |
| ChannelCache.SortGroups | model/cache.go:204-210 | every list of every group becomes a sorted permutation of itself |
| ChannelCache.NoPanic | model/cache.go:180-201 | with tables in step no write goes into a missing group |
| ChannelCache.IndexAgrees | model/cache.go:173-217 | with tables in step a cached list has exactly the channels with status 1 whose group and model lists hold the two, which are those the query finds |
| ChannelCache.CacheGetRandomSatisfiedChannel | model/cache.go:227-255 | an error exactly for an empty list; otherwise the position that the random numbers choose in the allowed range |
| ChannelCache.PicksAreQueries | model/ability.go:22-51 | what first picks and retries choose from, as sets computed from the two queries |
| ChannelCache.FirstPickAgreesIff | model/cache.go:237-248 | a first pick covers the query, and equals it if and only if the top priority is above 0 or all are equal; a retry stays within the query |
| Metric.Metrics.constructor | monitor/metric.go:7-7 | no channel has a window |
| Metric.Metrics.ConsumeSuccess | monitor/metric.go:11-16 | a success is pushed and never disables |
| Metric.Metrics.ConsumeFail | monitor/metric.go:18-38 | a failure is pushed; whether it disables, and the reset that goes with it |
| Metric.WindowIsLatest | monitor/metric.go:11-38 | the window of a channel is always its last min(n, size + 1) outcomes since it was last disabled, whatever other channels do |
| Metric.SuccessesAreWins | monitor/metric.go:23-28 | the loop counts the successes: as many as there are positions with a success |
| Metric.DisablesIffTrips | monitor/metric.go:18-38 | an outcome disables if and only if it is a failure, the latest size + 1 outcomes since the last disable are at least `size`, and the successes among them are fewer than the threshold times their number |
| Metric.DisablesApart | monitor/metric.go:33-36 | between two disables of a channel lie at least `size` of its outcomes |
| ClaudeStream.ResponseClaude2OpenAI | relay/adaptor/anthropic/main.go:210-247 | id, model, text, tools and finish reason of the one-piece answer |
| ClaudeStream.OneShotShows | relay/adaptor/anthropic/main.go:210-247 | the one-piece answer shows the text of the first block, and one more block adds a tool call exactly when it is a tool use |
| ClaudeStream.StopReasonsByName | relay/adaptor/anthropic/main.go:21-37 | the finish reason for each of the four stop reasons, for none, and that any other passes through |
| ClaudeStream.TranslationByKind | relay/adaptor/anthropic/main.go:149-208 | choice and usage for every kind of event, whatever else the event carries |
| ClaudeStream.FinalRepeatsCall | relay/adaptor/anthropic/main.go:287-323 | a final event after a tool call without arguments sends that call again with braces and no text; every other event is sent as translated |
| ClaudeStream.StreamHandler | relay/adaptor/anthropic/main.go:267-323 | the loop sends what folding the single-event translator over the parsed events gives, and sums the usages |
| ClaudeStream.StreamAddsUp | relay/adaptor/anthropic/main.go:149-323 | for every way to cut an answer into fragments, what a client puts together and the usage that is reported |
| ClaudeStream.StreamAgreesIff | relay/adaptor/anthropic/main.go:149-323 | the client sees the one-piece answer if and only if four conditions on the answer and its fragments hold |
| ClaudeStream.DistinctIdsWellNamed | relay/adaptor/anthropic/main.go:286-295 | tools with different ids that are not empty meet the naming condition of the stream theorems |
| ClaudeStream.OnePieceFragmented | relay/adaptor/anthropic/main.go:172-182 | every answer can be cut as the stream theorems ask, if only into one fragment for each block |
| ClaudeStream.ChunksAreNamed | relay/adaptor/anthropic/main.go:276-305 | every chunk of a stream has the id and the model of the one-piece answer |
| ClaudeStream.ToolsAgreeIff | relay/adaptor/anthropic/main.go:286-295 | when ids, names and argument strings of all tools agree |
| ClaudeStream.IdleEventsVanish | relay/adaptor/anthropic/main.go:155-207 | pings, block ends and unknown events change nothing for the client, wherever they come |
| Tokenizer.SplitProgresses | relay/adaptor/ollama/main.go:107-118 | every call of a split function gives a token and goes on, or asks for more, or is at the end |
| Tokenizer.TokenStable | relay/adaptor/zhipu/main.go:148-159 | a token that was found stays the same when more data comes |
| Tokenizer.CutsDoNotMatter | relay/adaptor/zhipu/main.go:148-159 | for every rule of this kind and every way to cut the stream into reads, the tokens are those of the whole stream |
| Tokenizer.TokensReassemble | relay/adaptor/ollama/main.go:107-118 | the tokens give back the stream, and none is cut too late |
| Tokenizer.SplitFunctionsAgree | relay/adaptor/ollama/main.go:107-118 | each of the three split functions gives the same tokens for every way to cut a stream, and the tokens joined by what it drops give the stream back |
| Tokenizer.TokensAreLines | relay/adaptor/anthropic/main.go:252-263 | the tokens of a Claude stream are its lines, without an empty last one |
| Tokenizer.TokensAreObjects | relay/adaptor/ollama/main.go:107-118 | every Ollama token but the last ends with the closing brace |
| Tokenizer.OllamaTokensUnbroken | relay/adaptor/ollama/main.go:107-118 | no token has a closing brace followed by a line break in it |
| Tokenizer.CutWhileColonAhead | relay/adaptor/zhipu/main.go:148-159 | a Zhipu stream is cut only where a colon is in what follows the last cut |
| Tokenizer.ZhipuTokensUnbroken | relay/adaptor/zhipu/main.go:148-159 | no token but the last has two line breaks in a row in it, and the last only without a colon |
| EventStream.Writer.WriteData | common/custom-event.go:62-68 | what is appended to the output, terminator included |
| EventStream.Writer.StringData | common/render/render.go:12-17 | one printed event is appended |
| EventStream.Writer.Done | common/render/render.go:28-30 | the end marker is printed as an event |
| EventStream.PrintedFed | common/custom-event.go:46-68 | a parser between two events takes a printed payload as exactly one event |
| EventStream.EveryPayloadArrives | common/custom-event.go:46-68 | any list of payloads, printed and parsed, gives as many events in order, whatever line ends they hold |
| EventStream.DeliveredUnchangedIff | common/render/render.go:12-17 | the data is the payload if and only if it has no carriage return, does not start with the prefix and has no indented line after the first |
| EventStream.PrefixTakenOffIff | common/render/render.go:12-17 | a payload that is the prefix and a text is delivered as that text if and only if the text has no carriage return and no indented line after the first |
| EventStream.LastCRTakenOff | common/render/render.go:14-14 | a single carriage return at the end changes nothing in what is delivered |
| EventStream.InnerCRSpelledOut | common/custom-event.go:46-48 | a carriage return within a line is delivered as a backslash and the letter r |
| Pipeline.Stream | relay/adaptor/anthropic/main.go:249-336 | what is written and the usage reported depend on the body alone, not on how it is cut into reads |
| Pipeline.ClientSees | common/render/render.go:12-26 | a client that parses the printed chunks and decodes them sees what the chunks add up to |
| Pipeline.EventLines | relay/adaptor/anthropic/main.go:272-285 | a line is parsed exactly if it has the prefix and something after it, and without the prefix |
| Pipeline.AnswerArrivesIff | relay/adaptor/anthropic/main.go:249-336 | from body to client: the parsed output gives the one-piece answer if and only if the conditions on answer and fragments hold, and the usage is the sum of both usages |
| ImageTokens.CountImageTokens | relay/adaptor/openai/token.go:148-212 | the cost for each level of detail, and the two errors |
| ImageTokens.FittedFits | relay/adaptor/openai/token.go:193-202 | after the scalings no side is above 2048 and one is at most 768 |
| ImageTokens.FittedIsProportional | relay/adaptor/openai/token.go:193-202 | each scaling keeps the proportion up to cutting off, and a short side above 768 becomes exactly 768 |
| ImageTokens.FittingIsUnchanged | relay/adaptor/openai/token.go:193-203 | a size that fits is not scaled, and has the fewest tiles of 512 that cover it |
| ImageTokens.AtMostEightTiles | relay/adaptor/openai/token.go:193-203 | at most 8 tiles for all sizes |
| ImageTokens.HighDetailCostBounded | relay/adaptor/openai/token.go:203-208 | the cost lies in [85, 1445], for gpt-4o-mini in [2833, 48169], and both upper ends are met |
| ImageTokens.NoTilesIff | relay/adaptor/openai/token.go:193-203 | exactly which sizes have no tiles, in exact arithmetic |

## Left out

- Database and Redis errors: every statement succeeds and is atomic; the updater drops a delta on error and only logs it.
- Integer width: amounts and counters are unbounded; int64 overflow is not modelled.
- Floating point: ratios, rates and scalings are real numbers, so that rounding of float64 is not modelled.
- The Redis caches of users and tokens: the balance is read from its row.
- Billing.PreConsumeQuota: the reminder mails, the quota cache update and the log entries are not modelled.
- Billing.RelayTextHelper: refund and settlement run to their end within the request here; `Ledger` has them as separate steps of concurrent requests.
- Billing.RelayAudioHelper: the settled quota is a parameter.
- Ledger.BalancesFollowPhases: batching is off here, `BatchedLedger` has it on; image requests, which hold nothing and settle once, are not among the concurrent ones.
- RelayRetry.Relay: the picks of the index and the ends of the upstream calls are parameters, and the error reports to the monitor are not modelled.
- RelayRouting.AttemptsDescend: the index stays the same during a run, though the program may rebuild it in between.
- Billing.RelayImageHelper: the price is a parameter.
- RedisRateLimiter.Limit: the commands of one request run without those of another in between.
- InMemoryRateLimiter.Limiter.Init: two first calls at once, which the lock keeps apart, are not modelled.
- Abilities.StepConsistentIff: columns that do not concern abilities are left out, and so are rows without a priority from older versions; ids of new channels are always fresh.
- ChannelStore.Store.BatchInsertChannels: the database chooses the ids one after the other.
- ChannelCache.SortModels: the order of equal priorities is one of those the sort may leave; no result depends on it.
- ChannelCache.Cache.InitChannelCache: the swap under the lock is one assignment.
- Metric.Metrics.ConsumeFail: the two consumers run as separate goroutines without a lock; here every outcome is one step.
- ClaudeStream.StreamHandler: a start of message without an id after a tool call without arguments crashes the handler; here the event is skipped.
- ClaudeStream.StreamAgreesIff: the JSON text of a tool input is an opaque string, and the client takes a call without an id, or with the id of the latest tool, as more arguments of the latest tool.
- Pipeline.Stream: trimming a line before it is parsed belongs to the opaque parser, and the chunks are printed after the loop over the events instead of within it.
- Tokenizer.CutsDoNotMatter: the maximal token size of the scanner and read errors are not modelled.
- EventStream.EveryPayloadArrives: reconnection times, which no event depends on, are ignored by the parser.
- ImageTokens.CountImageTokens: fetching and decoding the image is a parameter.
- ImageTokens.NoTilesIff: float64 rounding is not modelled; at 49 by 100352 it cuts a side of one pixel to nothing.
- Redemption.Redemptions.Redeem: changes of codes by administrators and the time of redemption are left out.
- HTTP handlers, authentication, logging, mail, other adaptors, and price tables: plumbing and data.
