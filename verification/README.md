# UniLLM gateway: model and proofs

UniLLM relays OpenAI-style chat calls to upstream providers, meters the tokens, bills the user and protects itself from bad upstreams. This project models the stateful logic of the Go server (`unillm/`) and proves what it keeps over whole runs. Every module stands for one source file or one step of a pipeline.

| module | models |
|---|---|
| `UsageLogs`, `Billing`, `BillingLaws`, `BillingStore` | usage recording through a Redis counter and list, the flush worker, and the shutdown drain |
| `Overdraft` | the balance check in front of asynchronous recording |
| `RateLimiting`, `RedisRateLimiting`, `RedisConcurrency`, `RedisOverAdmission` | the in-memory and the Redis sliding-window limiter, the latter under concurrent callers, and the ways it lets too many in |
| `CircuitBreaking`, `Resilience`, `Fallback`, `Registry`, `Permits` | the wrappers around one provider: breaker, retry, fallback chain, registration, concurrency limit |
| `Anthropic`, `AnthropicEvents`, `AnthropicAgreement`, `StreamAdapters`, `Gemini`, `OpenAI` | translation to and from the providers' own formats, whole and streamed |
| `ModelNames`, `Chunks`, `Metering`, `AnthropicRelay` | relaying a stream line by line, the bill made from it, and the relay behind the Anthropic adapter |
| `SampleCodecs`, `SampleStreams` | codecs that meet the laws assumed of JSON text, and concrete streams |
| `HealthHistory`, `KeyPool` | the health history's ring buffer and the round-robin key pool |
| `Json`, `Text`, `Lists`, `Sums`, `Wrappers` | JSON values, Go's string functions, collecting and adding up over sequences, optional values |

Conventions. Time is an integer clock that never runs backwards (`RedisConcurrency` leaves it free), money and seconds are counted in millionths, and a string that stands for bytes has one character per byte. JSON text is abstract: a `Codec` is any pair of functions of which decoding undoes encoding (`Lawful`), and where event streams matter no encoded text has a line break and `[DONE]` is not JSON (`FitsEventStream`); `SampleCodecs.PlainCodecIsLawful` shows that these laws can be met. Concurrent code is a state machine in which one lock section, or one Redis or database command, is a step; a Redis pipeline is not a transaction, so in `Billing` as in `RedisConcurrency` other callers' commands may come between its own. A run is any sequence of enabled steps. Whether a command succeeds is a step's or a method's argument, so every pattern of failures is covered. A command that reports failure is taken to have had no effect, except in `RedisConcurrency`, where it may take effect at any later time or never. Objects that the source updates in place are classes; each method is proved against a function of the history or of the old state, and the laws are proved about that function. The translation of a queue entry or a stream line is named by a record of functions (`Wire`, `Translator`, `Meter`), so that the laws about whole queues and streams do not depend on its details; `UsageLogs.StoreWire`, `AnthropicEvents.Translates` and `Metering.Measures` say what these functions are in the gateway.

## What the proofs show about the code

Most properties hold as intended. These do not, and the model keeps the code as it is. The members named show inputs on which they fail and the conditions under which they hold:

- The comment that half-open tests "with a single request" (`unillm/infra/provider/resilience.go:20`) is not what `Allow` does: after the timeout every request is let in until an outcome is recorded, so the trial is single exactly when only one request comes (`CircuitBreaking.AllTrialsAreLetIn`).
- The stream adapter reports EOF for every line that translates to nothing, and Anthropic's streams open with such a line. A reader that stops at the first EOF, as the relay loop does, gets nothing of them (`StreamAdapters.EventLineComesFirst`, `SampleStreams.ReplyIsLost`), and the client is billed an estimate (`AnthropicRelay.ChatCompletionStream`). `StreamAdapters.SegmentIsAll` says exactly when nothing is lost.
- The Redis limiter can let any number of calls beyond the limit into a window: a late undo takes away the newest entry, which may be another call's (`RedisOverAdmission.LateUndosOverAdmit`); calls of one microsecond share an entry, and an undo among them takes an admitted call's away (`RedisOverAdmission.SharedEntryOverAdmits`, `RedisOverAdmission.SameMicrosecondOverAdmits`); callers that count before any of them adds find the same last place (`RedisOverAdmission.OverlapOverAdmits`); a caller whose clock is ahead prunes the window of one whose clock is behind (`RedisOverAdmission.LateClocksOverAdmit`); and errors let callers in (`RedisOverAdmission.ErrorsOverAdmit`). `RedisConcurrency.AdmissionsBounded` bounds every run, without any assumption, by the limit plus the admissions of these five kinds, and each of the runs just named reaches that bound. With none of these causes, that is without errors, with clock readings that increase in the order of the commands, and with one caller at a time, the limit holds (`RedisConcurrency.LimitHoldsOneAtATime`).
- The two limiters can disagree on the nanosecond clock (`RedisRateLimiting.NanosecondsCanDisagree`), exactly when admissions in the cutoff's own microsecond make the difference, for one call (`RedisRateLimiting.NanosecondsAgreeIff`) and for a whole run (`RedisRateLimiting.RunsAgreeIff`).
- A flush worker cancelled with an entry in hand loses the entry, because the re-push runs under the same cancelled context (`BillingLaws.ChargedAndLost`, `BillingLaws.StrandedForGood`). While the process lives, entries are lost by failed re-pushes and failed inserts of the drain, and in no other way (`BillingLaws.EveryRunAccountsForLosses`); an entry still in the worker's hand when the process ends is lost without any failure (see Left out).
- A stream line that mentions usage and reports none discards an earlier report (`SampleStreams.ReportIsDiscarded`); the bill is the report exactly when the last such line reports something (`Metering.BillIsTheReportIff`).
- Rewriting the model name twice is the same as once exactly when there is nothing to rewrite or the first name has no quote in it (`ModelNames.RewriteTwice`, `ModelNames.QuotedNameStays`).
- The key rotation survives the wrap of its 64-bit index exactly when the pool size divides 2^64 (`KeyPool.RotationSurvivesWrap`, `KeyPool.ThreeKeysRepeat`).
- The health history is described as 7 days at one record a minute (`unillm/api/v1/status.go:39`). It is shared by all providers, so with p of them it keeps the last 10080 / p rounds whole, and a week of rounds exactly when there is at most one provider (`HealthHistory.LastRoundsAreKept`, `HealthHistory.WeekIsKeptIff`).

Two things the code decides that a caller may not expect:

- An upstream reply without usage is billed an estimate when streamed and nothing when not (`Metering.SameCostIffReported`).
- Native Gemini replies never finish with `tool_calls`, and their generated call ids repeat from one candidate or reply to the next (`Gemini.NeverFinishesForTools`, `Gemini.IDsRepeatAcross`).

## Model

| member | source | states |
|---|---|---|
| UsageLogs.ParseUndoesMarshal | unillm/infra/billing/store.go:155-189 | what RecordUsage marshals always parses, back to the same record, field by field |
| UsageLogs.StoreWireRoundTrips | unillm/infra/billing/store.go:41-58 | the store's own queue format round-trips, so the laws below apply to it |
| Billing.EveryRunConserves | unillm/infra/billing/store.go:27-150 | in every interleaving of recordings, workers and drains with arbitrary failures, entries pushed = queue + in hand + table + dropped, under any weighing of entries |
| BillingLaws.NoEntryTwice | unillm/infra/billing/store.go:110-150 | copies of an entry in queue, table and dropped never exceed the copies pushed, so an entry reaches the table at most once |
| BillingLaws.EveryRunAccountsForLosses | unillm/infra/billing/store.go:115-149 | rows are the parsed entries, nothing is skipped as unparsable, and the dropped entries number exactly the failed drain inserts plus failed re-pushes |
| BillingLaws.EveryRunKeepsCounter | unillm/infra/billing/store.go:34-35 | the counter equals the bill of all pushed records plus half-done pipelines, corrected by pipelines of which one command failed |
| BillingLaws.MoneyLaw | unillm/infra/billing/store.go:34-62 | in every reachable state a user's counter is the sum of the user's costs over table, queue, hands and dropped entries, up to those pipelines |
| BillingLaws.SettledCounterIsDurable | unillm/infra/billing/store.go:110-126 | with no failed recording, no loss, nobody at work and an empty queue, the counter is the durable sum |
| BillingLaws.StrandedEntryIsLost | unillm/infra/billing/store.go:145-149 | one step after a cancelled worker has an entry in hand it still has it, or the step was the failed re-push that dropped it |
| BillingLaws.StrandedForGood | unillm/infra/billing/store.go:145-149 | in every continuation the entry is still stranded or dropped |
| BillingLaws.ChargedAndLost | unillm/infra/billing/store.go:128-149 | for every record some run strands its entry and goes on to lose it: charged, and in no store at all |
| BillingLaws.CounterIsBill | unillm/infra/billing/store.go:34-35 | with no recording failed or under way, a user's counter is the bill of the user's records |
| BillingLaws.EveryRunInBatch | unillm/infra/billing/store.go:128-129 | in no interleaving does a worker take more than 100 turns between two ticks |
| BillingLaws.BreakMeaning | unillm/infra/billing/store.go:110-149 | a loop that pops nothing or cannot insert ends: a worker waits for its next tick, a drain is over |
| BillingLaws.FullBatchEnds | unillm/infra/billing/store.go:128-129 | after 100 turns a worker waits, and nothing more is popped |
| BillingLaws.OnlyTicksResume | unillm/infra/billing/store.go:97-108 | a waiting worker goes on with a tick and only then; what is over stays over |
| BillingStore.WrittenRowsAreRecords | unillm/infra/billing/store.go:110-126 | entries written by RecordUsage become exactly its records, in the order of the queue |
| BillingStore.Store.RecordUsage | unillm/infra/billing/store.go:27-62 | the counter and the queue each change if and only if their own command succeeds, and the call fails iff either does; the state is that of a run of the step system |
| BillingStore.Store.FlushAll | unillm/infra/billing/store.go:110-126 | whatever commands fail: moves the longest prefix of the queue whose pops and inserts succeed to the table, in order, and ends as the first failure says; without a failure the whole queue; only a failed insert loses its entry; a drained queue leaves every counter equal to the durable sum |
| BillingStore.Store.FlushOnce | unillm/infra/billing/store.go:128-151 | the same for at most 100 turns: without a failure the first 100 entries or all; an entry whose insert fails ends at the tail, or nowhere iff the push fails too |
| BillingStore.OutcomesDecide | unillm/infra/billing/store.go:110-151 | for every pattern of outcomes the number of entries moved and the way a drain or batch ends are determined by the first failure |
| BillingStore.NoFailureNoLoss | unillm/infra/billing/store.go:110-151 | and without a failure they are the whole queue and its end, or the worker's 100 and a full batch |
| BillingStore.Store.GetUsedAmount | unillm/infra/billing/store.go:72-82 | fails iff the read does; what is read is the sum of the user's recorded costs as long as no recording has failed |
| Overdraft.EveryRunBounded | unillm/core/billing/service.go:18-34 | usage never exceeds balance + debits + (K - pending) * C, for costs up to C and at most K requests admitted and unrecorded, in every interleaving with failures |
| Overdraft.CheckBalanceMeaning | unillm/core/billing/service.go:18-34 | a request is let in iff both reads succeed, something is left, and it covers the estimate |
| Overdraft.RefusedForGood | unillm/core/billing/service.go:18-34 | a request that cannot be checked, or has nothing left, is refused and never recorded |
| Overdraft.NextStaysBounded | unillm/core/billing/service.go:18-34 | every single step keeps the bound |
| Overdraft.BoundIsReached | unillm/core/billing/service.go:18-34 | for all K and C some run ends exactly at the bound |
| RateLimiting.FilterInPlace | unillm/api/middleware/ratelimit.go:40-45 | filtering an array into its own front gives the live entries in order; no unread entry is overwritten |
| RateLimiting.SimpleRateLimiter.Allow | unillm/api/middleware/ratelimit.go:31-54 | admits exactly when fewer than limit earlier admissions of the key lie in (now - window, now] |
| RateLimiting.InWindowIsSum | unillm/api/middleware/ratelimit.go:38-52 | a window's count is one for each admitted call of the key in (lo, hi], and for nothing else |
| RateLimiting.SimpleRateLimiter.Cleanup | unillm/api/middleware/ratelimit.go:56-77 | drops expired entries and empty keys and leaves the history, and with it every later decision, unchanged |
| RateLimiting.NoWindowOverflows | unillm/api/middleware/ratelimit.go:47-53 | no interval (t - window, t], for any t, holds more than limit admissions |
| RateLimiting.CleaningTracks | unillm/api/middleware/ratelimit.go:62-74 | what cleanup leaves is right for every later cutoff |
| RateLimiting.OtherKeysDoNotMatter | unillm/api/middleware/ratelimit.go:39-52 | a key's window count depends on that key's calls only |
| RateLimiting.FaithfulForEachKey | unillm/api/middleware/ratelimit.go:31-54 | each key's calls by themselves were decided by the rule |
| RedisRateLimiting.ZAddMeaning | unillm/api/middleware/redis_ratelimit.go:47-50 | the sorted set gains this member and no other, once |
| RedisRateLimiting.PruningIsExact | unillm/api/middleware/redis_ratelimit.go:41-44 | whether or not the key has expired, the pruned set counts the window's admissions, so expiry is unobservable |
| RedisRateLimiting.RedisRateLimiter.Allow | unillm/api/middleware/redis_ratelimit.go:33-69 | at any times and with any errors: lets the caller through on an error; as long as a key's calls came at increasing microseconds and without errors, admits exactly when fewer than limit admissions lie in the window |
| RedisRateLimiting.AfterCallMeaning | unillm/api/middleware/redis_ratelimit.go:38-66 | whatever Redis fails, what a call leaves of its key: nothing new if no command took effect, else the pruned set with its entry, from which only an undo that took effect takes the top away |
| RedisRateLimiting.LeftMeaning | unillm/api/middleware/redis_ratelimit.go:61-66 | the call's own entry is there unless undone, and an undo leaves exactly the pruned set when the call's entry is the newest |
| RedisRateLimiting.SameRuleInMicroseconds | unillm/api/middleware/redis_ratelimit.go:33-69 | with a window of whole microseconds its rule is the in-memory rule on the clock in microseconds |
| RedisRateLimiting.SameDecisions | unillm/api/middleware/redis_ratelimit.go:33-69 | an in-memory and a Redis limiter with the same limit and window gave a key that got the same orderly calls from both the same answers, whatever other keys did |
| RedisRateLimiting.NanosecondsCanDisagree | unillm/api/middleware/redis_ratelimit.go:41 | on the nanosecond clock they can disagree |
| RedisRateLimiting.NanosecondsAgreeIff | unillm/api/middleware/redis_ratelimit.go:41 | they agree on a call unless the admissions in the cutoff's own microsecond make up what is missing to the limit |
| RedisRateLimiting.RunsAgreeIff | unillm/api/middleware/redis_ratelimit.go:33-69 | on the nanosecond clock, all decisions of a run of the in-memory limiter are the Redis limiter's iff no call of it was decided by the cutoff's own microsecond |
| RedisRateLimiting.WholeMicrosecondsAgree | unillm/api/middleware/redis_ratelimit.go:41 | on readings of whole microseconds they always agree |
| RedisConcurrency.SizeBoundedInEveryRun | unillm/api/middleware/redis_ratelimit.go:38-66 | in every run of single commands the set never exceeds limit + denied calls that have not undone + entries that errors left behind + calls let in on a count after which others had added |
| RedisConcurrency.StrayByErrors | unillm/api/middleware/redis_ratelimit.go:38-66 | the entries left behind are at most as many as the run's errors |
| RedisConcurrency.UndoingIsOutstanding | unillm/api/middleware/redis_ratelimit.go:61-66 | the undos outstanding are the denials that no undo has followed |
| RedisConcurrency.AdmissionsBounded | unillm/api/middleware/redis_ratelimit.go:33-69 | in every run, with any clock readings, overlaps and errors, no window (t - window, t] holds more admissions than the limit plus those of its admissions that an error let in, that share another admission's entry, that lost theirs to another call's undo, or that were counted before another was added or after a later reading had pruned |
| RedisConcurrency.LimitHoldsOneAtATime | unillm/api/middleware/redis_ratelimit.go:33-69 | without errors, with readings that increase in the order of the commands, and with one caller at a time, no window (t - window, t] holds more than limit admissions |
| RedisOverAdmission.LateUndosOverAdmit | unillm/api/middleware/redis_ratelimit.go:64 | for every limit and number of extra calls: no errors, increasing times and whole pipelines, but limit + extra calls in one window; as in the next five rows the bound is reached |
| RedisOverAdmission.SameMicrosecondOverAdmits | unillm/api/middleware/redis_ratelimit.go:47-64 | the same without errors, with one caller at a time and no reading that runs backwards, by denied calls of one microsecond |
| RedisOverAdmission.SharedEntryOverAdmits | unillm/api/middleware/redis_ratelimit.go:43-50 | the same without a denied call either, for limits of two or more |
| RedisOverAdmission.OverlapOverAdmits | unillm/api/middleware/redis_ratelimit.go:38-61 | the same without errors, at increasing times and with no denied call, by callers that all count before one adds |
| RedisOverAdmission.LateClocksOverAdmit | unillm/api/middleware/redis_ratelimit.go:34-44 | the same without errors, with one caller at a time, no denied call and no microsecond admitted twice, by clocks that differ, for limits of two or more |
| RedisOverAdmission.ErrorsOverAdmit | unillm/api/middleware/redis_ratelimit.go:55-59 | the same at increasing times, with one caller at a time and no denied call, by errors |
| CircuitBreaking.CircuitBreaker.Allow | unillm/infra/provider/resilience.go:41-58 | rejects exactly when the failures recorded since the last success reach the threshold (and number at least one) and the last one is no older than the reset timeout |
| CircuitBreaking.CircuitBreaker.RecordSuccess | unillm/infra/provider/resilience.go:60-65 | extends the history by a success and closes the breaker |
| CircuitBreaking.CircuitBreaker.RecordFailure | unillm/infra/provider/resilience.go:67-75 | extends the history by a failure; closed iff fewer failures than the threshold |
| CircuitBreaking.StateDecidesAsHistory | unillm/infra/provider/resilience.go:45-57 | the three-state field and the history give the same answer on every clock-monotone history |
| CircuitBreaking.LastFailureDecides | unillm/infra/provider/resilience.go:45-75 | after any failures since the last success, of which the one at time t is the last, and any questions, a request is rejected iff the failures reach the threshold and now - t <= the reset timeout |
| CircuitBreaking.LatestFailureDecides | unillm/infra/provider/resilience.go:45-75 | on any log whose last failure trips it the time of that failure alone decides, whatever is asked after it |
| CircuitBreaking.NoFailureNoRejection | unillm/infra/provider/resilience.go:45-65 | without a failure since the last success nothing is rejected |
| CircuitBreaking.FailuresAreCounted | unillm/infra/provider/resilience.go:60-75 | the run of failures is the number of failures since the last success, whatever was asked in between |
| CircuitBreaking.QuestionsChangeNothing | unillm/infra/provider/resilience.go:54-55 | any number of further requests leaves the admission rule as it was; half-open is no single trial |
| CircuitBreaking.AllTrialsAreLetIn | unillm/infra/provider/resilience.go:48-55 | once the reset timeout has passed, every request before the next outcome is let in |
| CircuitBreaking.NoneIsLetInBefore | unillm/infra/provider/resilience.go:48-55 | and before that none is |
| CircuitBreaking.SuccessForgetsThenCounts | unillm/infra/provider/resilience.go:60-75 | after a success, n failures trip the breaker iff n reaches the threshold |
| Resilience.EmptyOutputMeaning | unillm/infra/provider/resilience.go:180-194 | output counts as non-empty iff the first choice has a message with a tool call or a non-empty string |
| Resilience.ResilientProvider.ChatCompletion | unillm/infra/provider/resilience.go:103-149 | the exact upstream calls, backoffs, result and breaker events of one call, whatever the upstream and other requests do |
| Resilience.ResilientProvider.ChatCompletionStream | unillm/infra/provider/resilience.go:151-165 | one upstream call unless rejected, and its outcome recorded once |
| Resilience.CallConsequences | unillm/infra/provider/resilience.go:103-149 | the first reply that is not empty ends the call and is returned; a success is recorded iff one is, a failure iff all retries + 1 attempts erred or were empty, with the last one's error; nothing is recorded when rejected or cut; calls and waiting are bounded |
| Resilience.CallTotals | unillm/infra/provider/resilience.go:108-148 | upstream calls are the replies, all to this provider with this key; the waiting is exactly 500ms, 1s, ... for the backoffs there were |
| Resilience.ScriptInOrder | unillm/infra/provider/resilience.go:109-148 | the i-th call gave the i-th reply, right after a full backoff of i times 500ms, and nothing else was done |
| Resilience.StreamConsequences | unillm/infra/provider/resilience.go:151-165 | opening a stream calls at most once, returns that answer or error, and records a success iff it was an answer |
| Fallback.FallbackProvider.ChatCompletion | unillm/infra/provider/fallback.go:40-67 | members are asked in order with their own key or the caller's, the first success is returned and no later member is called |
| Fallback.FallbackProvider.ChatCompletionStream | unillm/infra/provider/fallback.go:69-95 | the same for opening a stream |
| Fallback.ChainConsequences | unillm/infra/provider/fallback.go:40-67 | a member that succeeds is the last one asked and its answer is returned; a chain fails iff all members were asked and failed, with the last one's error |
| Fallback.ChainKeys | unillm/infra/provider/fallback.go:44-47 | each member is called with the key the chain has for it, or with the caller's; a registered chain has none |
| Fallback.ChainCallsBounded | unillm/infra/provider/fallback.go:40-67 | upstream calls of a chain are at most the sum of retries + 1 over members whose breaker admits |
| Fallback.ThreeCallsEach | unillm/infra/provider/fallback.go:40-67 | with the gateway's two retries that is at most three calls for each member asked |
| Fallback.StreamChainCallsBounded | unillm/infra/provider/fallback.go:69-95 | opening a stream calls each member asked at most once, without waiting, and not at all when its breaker rejects |
| Fallback.AllOpenMakesNoCall | unillm/infra/provider/fallback.go:40-67 | with every breaker open the chain fails without touching any upstream |
| Registry.ChainSpecIsReadBack | unillm/infra/provider/register.go:59-66 | a chain written group:name,name is read back as exactly these names |
| Registry.SecondColonEndsTheList | unillm/infra/provider/register.go:59-66 | everything after a second colon is ignored |
| Registry.FoundInOrder | unillm/infra/provider/register.go:66-73 | the names of a chain are looked up one by one, in order |
| Registry.FoundOne | unillm/infra/provider/register.go:69-72 | each without white space around it, and unknown ones are skipped |
| Text.TrimMeaning | unillm/infra/provider/register.go:69 | trimming drops the white space at both ends and nothing else |
| Text.SpaceMeaning | unillm/infra/provider/register.go:69 | white space is the six ASCII ones |
| Registry.MembersAreFound | unillm/infra/provider/register.go:66-73 | the members are the providers entered under the names found, in that order |
| Registry.RegisterAll | unillm/infra/provider/register.go:17-37 | known rows are wrapped and entered under their name, all as direct providers, and the chain is built from them; a failed listing registers nothing |
| Registry.RegisterFallbackChains | unillm/infra/provider/register.go:53-83 | at most one entry is added or replaced: the group, with the listed members that exist, in order, and no keys of its own |
| Registry.ShadowingIsNotRecursive | unillm/infra/provider/register.go:65-81 | although the directory and a chain may hold any provider, a group that takes a member's name holds only providers entered directly before it, so neither itself nor another group |
| Permits.EveryRunIsSound | unillm/infra/provider/concurrency.go:34-69 | in every interleaving the permits out are unary calls in flight + streams being opened + streams not closed, and never exceed the limit |
| Permits.PermitsReturn | unillm/infra/provider/concurrency.go:34-69 | all permits are back exactly when all work has ended |
| Permits.RefusedOnlyAtCapacity | unillm/infra/provider/concurrency.go:35-37 | a call is refused exactly when the holders have used up the limit |
| Permits.ClosedStaysClosed | unillm/infra/provider/concurrency.go:62-69 | whatever happens in between, a second Close releases nothing |
| Permits.ConcurrencyLimitedProvider.ChatCompletion | unillm/infra/provider/concurrency.go:34-40 | takes a permit, gives it back after the inner call, whatever others do meanwhile; Release never underflows |
| Permits.ConcurrencyLimitedProvider.ChatCompletionStream | unillm/infra/provider/concurrency.go:42-53 | a failed open gives the permit back, an opened stream keeps it |
| Permits.SemaphoreReleasingReader.Close | unillm/infra/provider/concurrency.go:62-69 | only the first Close releases |
| OpenAI.PartsReadAsOneString | unillm/infra/provider/anthropic_provider.go:431-441 | an array of text parts reads as its texts joined, the same as that one string |
| OpenAI.TextPartIsRead | unillm/infra/provider/anthropic_provider.go:431-441 | each text part of an array is read at its place as its text |
| OpenAI.OtherPartIsPassedOver | unillm/infra/provider/anthropic_provider.go:434-439 | a part without a text is passed over |
| OpenAI.OtherContentIsItsJson | unillm/infra/provider/anthropic_provider.go:442-447 | no content is no text; other content is sent as JSON that decodes to it |
| OpenAI.TextsReadBack | unillm/infra/provider/anthropic_provider.go:203-206 | the content made of a reply's texts reads as their concatenation, and is nil iff there is none |
| OpenAI.LiftedInOrder | unillm/infra/provider/anthropic_provider.go:103-147 | whatever form messages are put in, the k-th message that is not a system message is the k-th one sent, and there are no others |
| Anthropic.ConvertRequest | unillm/infra/provider/anthropic_provider.go:92-161 | messages converted in order, system text lifted out, tools one to one, token limit filled in |
| Anthropic.MessagesMapInOrder | unillm/infra/provider/anthropic_provider.go:103-147 | the k-th message that is not a system message becomes the k-th message, and there are no others |
| Anthropic.ConvertedMeaning | unillm/infra/provider/anthropic_provider.go:109-146 | a tool's result becomes the user's tool_result block for its call; any other message keeps its role and goes out as its text, or as blocks iff the assistant calls tools |
| Anthropic.LastSystemWins | unillm/infra/provider/anthropic_provider.go:104-107 | the last system message is the system text |
| Anthropic.NoSystemNoText | unillm/infra/provider/anthropic_provider.go:104-107 | without a system message there is no system text |
| Anthropic.ConvertResponse | unillm/infra/provider/anthropic_provider.go:165-228 | text blocks joined, tool blocks as calls in order, finish reason mapped, usage added up |
| Anthropic.BlocksAreReadInOrder | unillm/infra/provider/anthropic_provider.go:187-209 | texts and calls of a reply are those of its parts, in order |
| Anthropic.OneBlockIsRead | unillm/infra/provider/anthropic_provider.go:188-200 | a text block is a text, a tool_use block is a function call with its id, name and input, any other block is nothing |
| Anthropic.ToolCallsRoundTrip | unillm/infra/provider/anthropic_provider.go:111-216 | the blocks of a message with tool calls read back with the same text, ids, names, arguments and order; the whole calls are equal iff all were function calls |
| AnthropicEvents.OnlySwallowedIsEmpty | unillm/infra/provider/anthropic_provider.go:402-413 | a line gives no bytes iff it is an event: line or an event that is not translated |
| AnthropicEvents.EventLineIsSwallowed | unillm/infra/provider/anthropic_provider.go:409-413 | event: lines give no bytes |
| StreamAdapters.StreamAdapter.BufRead | unillm/infra/provider/anthropic_provider.go:319-321 | bytes.Buffer.Read: as many bytes as fit, and EOF on an empty buffer unless nothing was asked for |
| StreamAdapters.StreamAdapter.Read | unillm/infra/provider/anthropic_provider.go:317-419 | buffered bytes first, then one line; out followed by what is still to come is what was to come before |
| StreamAdapters.StreamAdapter.ReadToEOF | unillm/infra/provider/anthropic_provider.go:317-419 | with any positive read sizes, the bytes before the first EOF are exactly the segment |
| StreamAdapters.StreamAdapter.ReadThrough | unillm/infra/provider/anthropic_provider.go:317-419 | a reader that goes on past EOF gets the whole translation up to message_stop |
| StreamAdapters.TranslationIsUpToTheStop | unillm/infra/provider/anthropic_provider.go:317-419 | the translation is that of all lines up to and including the first message_stop |
| StreamAdapters.TranslationWithoutStop | unillm/infra/provider/anthropic_provider.go:317-419 | and of all lines if there is none |
| StreamAdapters.JoinedIsConcat | unillm/infra/provider/anthropic_provider.go:317-419 | that is, their outputs one after the other, in order |
| StreamAdapters.SegmentIsLongestRun | unillm/infra/provider/anthropic_provider.go:317-419 | the segment is the translations of the longest run of lines that all translate to something, cut after message_stop |
| StreamAdapters.SegmentIsAll | unillm/infra/provider/anthropic_provider.go:402-413 | the first EOF loses nothing iff it follows message_stop or every later line up to message_stop is swallowed |
| StreamAdapters.SilentIffSwallowed | unillm/infra/provider/anthropic_provider.go:402-413 | nothing is left to deliver iff every line up to message_stop is swallowed |
| StreamAdapters.EventLineComesFirst | unillm/infra/provider/anthropic_provider.go:409-413 | a stream that opens with an event: line has an empty segment, so the first EOF comes before any byte |
| AnthropicAgreement.LineShows | unillm/infra/provider/anthropic_provider.go:355-418 | from the bytes of a translated line, in front of any others, a client takes exactly the text Anthropic sent in it |
| AnthropicAgreement.StreamShowsItsText | unillm/infra/provider/anthropic_provider.go:317-419 | from the bytes of the whole translation, split into lines, it takes exactly the text of the lines up to message_stop |
| AnthropicAgreement.StreamAgreesWithResponse | unillm/infra/provider/anthropic_provider.go:187-371 | however the text is split into deltas, what a client takes from the streamed bytes is the content convertResponse builds |
| AnthropicAgreement.AdapterAgreesWithResponse | unillm/infra/provider/anthropic_provider.go:187-419 | the same for the adapter's own translation of its lines |
| AnthropicAgreement.FinishReasonsAgree | unillm/infra/provider/anthropic_provider.go:210-397 | both paths give the same finish reason for every stop reason |
| AnthropicAgreement.RawStopReason | unillm/infra/provider/anthropic_provider.go:374-397 | for a raw message_delta line the chunk's finish reason is the one that the unstreamed path gives for its delta's stop reason |
| AnthropicAgreement.RawNoStopReason | unillm/infra/provider/anthropic_provider.go:375-382 | without a stop reason it is stop |
| AnthropicAgreement.RawTextDelta | unillm/infra/provider/anthropic_provider.go:358-372 | for a raw text_delta line the chunk's content is the delta's text, and the chunk names the model |
| AnthropicAgreement.RawOtherDelta | unillm/infra/provider/anthropic_provider.go:358-361 | any other kind of delta gives no bytes |
| AnthropicAgreement.RawTokens | unillm/infra/provider/anthropic_provider.go:392-396 | the usage the meter reads in the chunk is the event's output tokens, as completion tokens |
| AnthropicAgreement.RawNoTokens | unillm/infra/provider/anthropic_provider.go:392-396 | and none if they are no number |
| AnthropicAgreement.RawNoUsage | unillm/infra/provider/anthropic_provider.go:392-396 | without a usage object the chunk has none |
| AnthropicAgreement.RawStop | unillm/infra/provider/anthropic_provider.go:399-401 | an event ends the stream iff it is message_stop, which becomes the end mark |
| AnthropicAgreement.RawOtherEvent | unillm/infra/provider/anthropic_provider.go:402-404 | events of other types give no bytes |
| AnthropicAgreement.RawOtherLine | unillm/infra/provider/anthropic_provider.go:336-353 | a line that carries no event and is no event: line is passed on, trimmed |
| Gemini.ConvertToGemini | unillm/infra/provider/google_provider.go:184-250 | the contents, the system instruction, the token limit and one declaration of all tools |
| Gemini.ContentsMapInOrder | unillm/infra/provider/google_provider.go:193-233 | the k-th message that is not a system message becomes the k-th content, and there are no others |
| Gemini.ConvertedMeaning | unillm/infra/provider/google_provider.go:201-233 | a tool's result becomes the user's function response under the tool's name; the assistant becomes the model and other roles are kept |
| Gemini.SystemIsTheLast | unillm/infra/provider/google_provider.go:194-199 | the system instruction is the last system message's text, and there is one iff there is such a message |
| Gemini.ConvertFromGemini | unillm/infra/provider/google_provider.go:252-316 | one choice per candidate with its texts joined and its calls in order; usage copied |
| Gemini.OneMorePartIsRead | unillm/infra/provider/google_provider.go:279-293 | each part adds its text, if any, and its call, if any, as a function call whose id is its number |
| Gemini.NoPartsNothingRead | unillm/infra/provider/google_provider.go:270-295 | from no parts nothing is read |
| Gemini.DecimalMeaning | unillm/infra/provider/google_provider.go:285 | the number in an id is written in decimal digits without a leading zero |
| Gemini.ToolCallsRoundTrip | unillm/infra/provider/google_provider.go:205-291 | text, names, arguments and order survive; ids are replaced by call_0, call_1, ... |
| Gemini.IDsKeptIffStandard | unillm/infra/provider/google_provider.go:283-285 | the calls survive unchanged iff they already had these ids and were function calls |
| Gemini.IDsDistinctWithin | unillm/infra/provider/google_provider.go:284 | generated ids are pairwise different within a candidate |
| Gemini.IDsRepeatAcross | unillm/infra/provider/google_provider.go:277-284 | and the same from one candidate or reply to the next |
| Gemini.NeverFinishesForTools | unillm/infra/provider/google_provider.go:299-305 | the finish reason is length iff MAX_TOKENS, else stop, and never tool_calls |
| ModelNames.SpanMeaning | unillm/core/inference/helpers.go:45-57 | what is rewritten is the text between the first model prefix and the next quote |
| ModelNames.SpanUnique | unillm/core/inference/helpers.go:45-57 | and no other stretch of the line |
| ModelNames.RewriteMeaning | unillm/core/inference/helpers.go:45-57 | the name after the first prefix is replaced, and every other character stays |
| ModelNames.NothingToRewrite | unillm/core/inference/helpers.go:48-55 | a line without a prefix, or without a quote after it, is left alone |
| ModelNames.RewriteTwice | unillm/core/inference/helpers.go:45-57 | rewriting twice equals rewriting once iff there is nothing to rewrite or the first name is quote-free |
| ModelNames.QuotedNameStays | unillm/core/inference/helpers.go:45-57 | a name that is a quote makes the second rewriting differ, on every line with a model value |
| Metering.Relay | unillm/core/inference/service.go:113-129 | wherever the writer fails, the client has a prefix of the relayed lines, and usage and content length are the folds over the processed lines |
| Metering.ProcessedMeaning | unillm/core/inference/service.go:112-129 | the lines processed are all of them if no write or flush fails, and else those up to the first that does |
| Metering.RelayedMeaning | unillm/core/inference/service.go:114-124 | only data lines are rewritten, and never the end mark |
| Metering.DataLineMeasured | unillm/core/inference/service.go:114-121 | from a data line that names no model the usage and content of its payload are taken, and the usage only if the line mentions it |
| Metering.OtherLineMeasured | unillm/core/inference/service.go:114 | from any other line, and from the end mark, nothing |
| Metering.CharsAreSum | unillm/core/inference/service.go:120 | the length of the answer is the sum over its lines |
| Chunks.UsageReadBack | unillm/core/inference/helpers.go:74-87 | a usage object in the API's form is read back as its three counts |
| Chunks.NoUsageRead | unillm/core/inference/helpers.go:83-86 | without a usage object nothing is read |
| Chunks.ContentReadBack | unillm/core/inference/helpers.go:59-72 | the content read is the first choice's |
| Chunks.NoChoiceNoContent | unillm/core/inference/helpers.go:59-72 | without a choice there is no content |
| Metering.LastUsageWins | unillm/core/inference/service.go:117-119 | the last line that mentions usage decides |
| Metering.NoUsageNoTokens | unillm/core/inference/service.go:109 | without such a line there is no reported usage |
| Metering.BillIsTheReportIff | unillm/core/inference/service.go:117-136 | with i the last line that mentions usage, the bill is its report iff that has prompt or completion tokens, and else the estimate |
| SampleStreams.ReportIsDiscarded | unillm/core/inference/service.go:117-136 | a stream that reports 7 tokens and then a null usage is billed the estimate of an empty call |
| SampleStreams.ReplyIsLost | unillm/infra/provider/anthropic_provider.go:317-419 | a stream of an event: line and a text delta has the delta's chunk as its translation and nothing as its segment |
| AnthropicRelay.ChatCompletionStream | unillm/core/inference/service.go:107-147 | behind the adapter the client gets, and is billed for, lines of the segment only; for a stream that opens with an event: line it gets no line and is billed the estimate |
| AnthropicRelay.FirstLineIsScanned | unillm/core/inference/service.go:111-113 | a line that ends in a line feed, with or without a carriage return, is scanned as it is |
| AnthropicRelay.RestIsScanned | unillm/core/inference/service.go:111-113 | text after the last line end is a line too |
| Metering.EstimatePromptTokens | unillm/core/inference/helpers.go:89-102 | a quarter of the messages' lengths, at least 1 and at least one token a message |
| Metering.LengthIsOfTexts | unillm/core/inference/helpers.go:89-100 | the length estimated from is that of all messages' texts, or JSON texts, and four a message |
| Metering.EstimateMeaning | unillm/core/inference/service.go:130-136 | an unreported call is billed a token for every four bytes of its messages and of its answer, at least one each, and their sum |
| Metering.ChatCompletionStream | unillm/core/inference/service.go:97-147 | exactly one record: zeros and an error if the upstream fails, else the bill for the processed lines, which is never empty and adds up when estimated; its cost is prompt tokens at the input and completion tokens at the output price per million |
| Metering.CostMeaning | unillm/core/inference/helpers.go:15-26 | costs add up; a million prompt tokens cost the input price and a million completion tokens the output price |
| Metering.SameCostIffReported | unillm/core/inference/service.go:64-136 | at positive prices a call costs the same streamed and unstreamed iff the upstream reports some usage; unreported usage is free only unstreamed |
| HealthHistory.StatusHandler.AppendHistory | unillm/api/v1/status.go:167-174 | record k sits at slot k mod 10080 until record k + 10080 replaces it |
| HealthHistory.StatusHandler.HistoryIsRotated | unillm/api/v1/status.go:167-174 | the history is the last records, turned at the write position |
| HealthHistory.StatusHandler.HistoryIsTheLast | unillm/api/v1/status.go:167-174 | it holds exactly the last min(n, 10080) records |
| HealthHistory.StatusHandler.CheckAll | unillm/api/v1/status.go:67-125 | a round appends its records in order |
| HealthHistory.LastRoundsAreKept | unillm/api/v1/status.go:74-125 | with p providers the rounds kept whole are exactly the last 10080 / p |
| HealthHistory.OldestRoundKept | unillm/api/v1/status.go:74-125 | once full, the oldest record kept is from ceil(10080 / p) rounds ago |
| HealthHistory.WeekIsKeptIff | unillm/api/v1/status.go:39-44 | after at least 10080 rounds the last 10080 are all kept iff there is at most one provider |
| HealthHistory.Aggregate | unillm/api/v1/status.go:223-238 | a bucket for exactly the provider-hours that occur, with count, ups and latency sum of their records |
| HealthHistory.BucketsAreOfRecords | unillm/api/v1/status.go:223-233 | there is a bucket iff a record of that provider falls into that hour |
| HealthHistory.StatsAreSums | unillm/api/v1/status.go:223-239 | a bucket's three numbers are the records of that provider and hour, those of them that were up, and the sum of their latencies |
| HealthHistory.BucketsPartition | unillm/api/v1/status.go:223-261 | in any order the totals add up to the history's length, and up never exceeds total |
| KeyPool.Service.Reload | unillm/core/catalog/service.go:27-49 | pools are the listed keys by provider name, skipping providers whose keys cannot be listed; a failed listing changes nothing |
| KeyPool.KeysInOrder | unillm/core/catalog/service.go:34-41 | a provider's keys follow those of the providers of the same name before it, in their own order |
| KeyPool.Service.NextKey | unillm/core/catalog/service.go:103-114 | hands out the key whose turn it is among the calls for this provider; other providers are not affected |
| KeyPool.Service.FirstKey | unillm/core/catalog/service.go:116-126 | returns the key that the provider's first NextKey call since the reload got or will get, and takes no turn; an error iff there are no keys |
| KeyPool.KeysAreShared | unillm/core/catalog/service.go:103-114 | after n calls, up to 2^64, the key at position i was used as often as its share, in any interleaving |
| KeyPool.ShareIsCeiling | unillm/core/catalog/service.go:111 | the share is ceil((n - i) / k), or 0 if n <= i |
| KeyPool.UsesDifferByAtMostOne | unillm/core/catalog/service.go:103-114 | two positions of a pool differ by at most one use, the earlier one ahead |
| KeyPool.RotationSurvivesWrap | unillm/core/catalog/service.go:15-112 | past the 64-bit wrap the rotation is undisturbed iff the pool size divides 2^64 |
| KeyPool.ThreeKeysRepeat | unillm/core/catalog/service.go:111-112 | with three keys the same key comes twice running at the wrap |

## Left out

- HTTP clients, handlers, authentication, the frontend, repositories, metrics and configuration: plumbing without logic of their own.
- Embeddings, `prepareChatRequest` and `isReasoningModel`: they would only add easy members.
- BillingStore.Store.RecordUsage: leaves out the day and model counters of the pipeline and their expiry; no later decision reads them.
- Commands that take effect although they report failure, such as an insert that times out after committing: outside `RedisConcurrency` a failed command is taken to have had no effect.
- The end of the process: at shutdown the server cancels the worker and returns after the drain without waiting for it (unillm/cmd/server/main.go:212-217), so an entry in the worker's hand dies with the process although no command failed; in the model it stays in hand.
- BillingStore.Store.FlushAll: states a drain that is alone at work; a worker still in flight, other drains and recordings in between are the step system's.
- BillingStore.Store.FlushOnce: states one batch by a worker alone; other workers, recordings and cancellation in between are the step system's (`Billing`, `BillingLaws`).
- RedisRateLimiting.RedisRateLimiter.Allow: states one caller after the other, and nothing of a key's later decisions once two of its calls shared a microsecond or Redis failed one; what those and concurrent callers can do is `RedisConcurrency`.
- Fallback.FallbackProvider.constructor: takes chains of resilient providers only, which is what registration is proved to build; a chain inside a chain is not modelled.
- HealthHistory.StatusHandler.CheckAll: takes the round's records as given; probing the providers and skipping those that are not registered is not modelled.
- Rounding of the Redis key expiry to whole seconds: `RedisRateLimiting` expires a key after exactly the window plus one second, and `RedisConcurrency` may expire it at any time, by which it loses no more than a pruning would take.
- Backing arrays of Go slices beyond one filter pass: each pass of the limiter works on its own array, whose contents are then the key's slice.
- JSON text: key order, number formats, floating-point rounding, invalid UTF-8 and case-insensitive key matching are not modelled; tool arguments pass through conversions unchanged, while Go's encoder would compact or refuse them.
- Trimming of non-ASCII white space: `Text.IsSpace` knows the ASCII ones.
- The scanner's own limits: a line over the scanner's buffer is a scanner error, which the adapter model has, and which ends the relayed stream like its end.
- The token details of Anthropic cache use and Gemini thinking, sampling parameters and image blocks: copied or dropped without a decision.
- Registry.RegisterFallbackChains: takes a registry that holds the listed providers only, which is the one `RegisterAll` calls it with.
- Panics in provider calls, and two concurrent Close calls on one stream.
