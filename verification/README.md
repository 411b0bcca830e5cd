# A verified model of octollm

octollm is an LLM gateway assembled from small stateful engines. This project models the engines whose
behaviour is decided by their own logic and proves what they promise over every input, run or interleaving.

How the model is built:

- An object whose methods update fields is a `class`; its methods are proved equal to steps on a plain state,
  and the promises are lemmas about whole runs of those steps.
- Input channels are sequences that are read to the end, output channels are the sequence of everything sent.
  Runs are uncancelled. Bodies start as parsed values.
- A Redis script is one atomic step on shared state. Runs are arbitrary interleavings of such steps by any
  number of gateways, with a clock that does not go backwards where a claim needs that. Rates are `real`.
- Random choices (start weights, shuffles, the pick among all-zero weights, map iteration order) are arbitrary
  values in their range. Engines, upstream fetches, moderation services and counters are functions that may
  answer anything, also differently on every call.

The parts:

| files | what they cover |
|---|---|
| `ChatTypes`, `ClaudeTypes`, `StreamConverter`, `StreamShape`, `ConversionMeaning` | OpenAI chunks to Claude events: the state machine, its event grammar, its content, its reports |
| `Reports`, `ClaudeMerger`, `ClaudeMeaning`, `MergedSections`, `ChatMerger`, `ChatMeaning`, `ChatIndependence`, `CommutingSquare` | both mergers and what a merged response says, independence of chunking and interleaving, convert-then-merge against merge-then-convert |
| `Sums`, `SmoothWrr`, `ShardKeyWrr`, `ShardKeyFailover` | smooth weighted round robin, the shard-key variant and its retry loop |
| `Leases`, `ConcurrencyLimiter`, `ColorMarker`, `ColorLimiter` | sorted-set concurrency limiters with leases |
| `TokenBucket`, `RequestLimiters`, `TierExpiry`, `TokenMeaning`, `PostPaidBucket` | token buckets, reservation, expiry, post-paid balance |
| `Failover` | the shard-key concurrency balancer |
| `JsonEdits`, `ImageEdits`, `ArrayEdits`, `ClaudeImages`, `OpenAIImages` | image inlining by path edits |
| `Sse`, `Text`, `ModerationGate`, `RepeatDetector`, `MemoryIndex`, `CachePaths`, `FileStore` | server-sent events, the moderation gate, the repeat detector, the file cache |

Where a promise does not hold of the code as it stands, the exact condition is proved:

- A tool-call fragment that arrives while a thinking block is open goes into that block. Deltas fit their
  blocks if and only if no fragment with arguments does so (`StreamShape.DeltasFitBlocks`).
- A lone `[DONE]` gives `message_stop` without `message_start`; the output is complete unless a fragment that has to
  open a block brings no function (`StreamShape.GrammarHolds`).
- The two conversion paths agree on a canonical stream if and only if every tool call has arguments, text
  separates reasoning from tool calls, and present reasoning is not empty (`CommutingSquare.CommutingSquareExactly`).
- The shard-key round robin is plain round robin one accumulation behind if and only if not every start weight was
  drawn as zero (`ShardKeyWrr.SimulatesExactly`).
- A comment in the shard-key retry loop says it cannot run out of engines. It cannot with distinct backend names
  (`ShardKeyFailover.DistinctNamesSuffice`), which the constructor does not demand. Against engines that always fail
  before any deadline the last error is lost if and only if two backends share a name and there are fewer names than
  attempts (`ShardKeyFailover.ErrorLostExactly`).
- An acquire takes the requests in flight over the cap if and only if they fill it and one of them has let its lease
  lapse (`ConcurrencyLimiter.OveradmitsExactly`).
- The post-paid limiter's expiry goes unnoticed over a run if and only if no check meets an expired key still in debt
  and no deduction one that would not yet be full (`PostPaidBucket.UnnoticedExactly`).
- Printed events are read back unchanged if and only if every body is non-empty and bodies, events and ids are
  single lines without leading space or trailing carriage return (`Sse.RoundTrip`).
- `DeleteBucket` removes whatever the joined path names. With a slash in the bucket argument that can be the
  file of another bucket's key, and files and index then differ until `Get` notices (`FileStore.Store.DeleteBucket`,
  `CachePaths.SlashStrikes`); without one it never is (`CachePaths.NoSlashNoStrike`).

## Model

| member | source | states |
|---|---|---|
| StreamConverter.ConvertStream | pkg/engines/converter/claude.go:396-757 | for every input the events sent are the header, then the sections obtained by grouping the stream's fragments, each as one bracketed block, then the ending, also when the stream is cut short or a function is missing |
| StreamConverter.Converter.HandleReasoning | pkg/engines/converter/claude.go:554-617 | a non-empty reasoning fragment continues an open thinking block and otherwise closes what is open and starts the next block |
| StreamConverter.Converter.HandleContent | pkg/engines/converter/claude.go:618-680 | the same for text and text blocks |
| StreamConverter.Converter.HandleToolCall | pkg/engines/converter/claude.go:681-750 | a tool-call fragment starts a block from nothing, from text and from another call's index, but not from an open thinking block; it fails exactly when it must open a block and has no function, after the previous block was closed |
| StreamConverter.Converter.HandleChunk | pkg/engines/converter/claude.go:500-750 | after every chunk the state shows exactly the sections of all chunks so far, and remembers the last finish reason and usage |
| StreamConverter.Converter.HandleDone | pkg/engines/converter/claude.go:435-496 | `[DONE]` closes the open block and sends message_delta, with the last usage, exactly when a finish reason was seen, then message_stop |
| StreamConverter.ShowsStepped | pkg/engines/converter/claude.go:555-750 | one step of the state machine keeps the events sent equal to the rendering of the sections, with the last block left open |
| StreamConverter.ConvertNonStream | pkg/engines/converter/claude.go:305-394 | the non-stream path gives the response of the functional reading: reasoning, text, then the calls that have a function |
| ConversionMeaning.StreamEndSays | pkg/engines/converter/claude.go:455-496 | on every output: one message_delta exactly when `[DONE]` was read, nothing crashed and a finish reason was seen; its stop reason translates the last finish reason, its input and cached tokens add up to the last prompt count, cached ones are apart exactly when there are any, and output tokens are the completion tokens |
| ConversionMeaning.StreamStartSays | pkg/engines/converter/claude.go:505-526 | the stream opens with the first chunk's id and model, role assistant and zero tokens |
| ConversionMeaning.ReadSays | pkg/engines/converter/claude.go:433-500 | exactly what was parsed before the first `[DONE]` is read |
| ConversionMeaning.NonStreamSays | pkg/engines/converter/claude.go:320-384 | every field of a converted response: tokens and stop reason as for the stream, and the blocks one by one |
| StreamShape.GrammarHolds | pkg/engines/converter/claude.go:408-752 | every output keeps message_start, numbered non-overlapping blocks, message_delta exactly with a finish reason, message_stop; it is rejected exactly for a lone `[DONE]`, and complete, with one block for every fragment that opens one, exactly when the stream had chunks, ended in `[DONE]` and no fragment that opens a block lacks its function |
| StreamShape.BlocksByInput | pkg/engines/converter/claude.go:555-750 | which fragments open a block, how many blocks there are and whether a missing function ends the stream, read off the input alone |
| StreamShape.DeltasFitBlocks | pkg/engines/converter/claude.go:685-695 | every delta fits the kind of its block if and only if no arguments arrive while a thinking block is open |
| StreamShape.ContentPreserved | pkg/engines/converter/claude.go:554-750 | the deltas sent are exactly the non-empty fragments of the input, in input order |
| StreamShape.BlocksAreGroups | pkg/engines/converter/claude.go:554-750 | every block is announced with the kind, id and name of the fragment that opens it and carries exactly the deltas of the fragments up to the next opening |
| StreamShape.KindsFollowed | pkg/engines/converter/claude.go:555-750 | the kind of the open block can be read off the input, and all sections are pure exactly when nothing was misrouted |
| ClaudeMerger.Merger.Merge | pkg/streammerge/claude.go:46-107 | one event changes the accumulated response and blocks as specified, is rejected exactly for parse errors and deltas to blocks that were not opened, and panics exactly on a negative start index |
| ClaudeMerger.Merger.Merged | pkg/streammerge/claude.go:205-225 | the content is the opened blocks in index order, computed once |
| ClaudeMerger.RunAppend | pkg/streammerge/claude.go:46-107 | merging a stream in two parts is merging it at once, errors included |
| ClaudeMeaning.ResponseSays | pkg/streammerge/claude.go:46-225 | for every accepted stream: id, type, role, model, stop reason, stop sequence and the four token counts are the last ones reported, and the content is one block for every announced index, with the id and name of its last start and the text, signature and input joined from the deltas since |
| ClaudeMeaning.AcceptedExactly | pkg/streammerge/claude.go:69-91 | a stream is accepted exactly when it has no delta to an unannounced block and no start with a negative index |
| ClaudeMeaning.NextAccepted | pkg/streammerge/claude.go:69-91 | the next event is rejected exactly as a stray delta and panics exactly as a negative start |
| MergedSections.MergeClosed | pkg/streammerge/claude.go:46-107 | merging the events of a list of sections gives one accumulated block for each |
| MergedSections.MergerAccepts | pkg/streammerge/claude.go:77-91 | the Claude merger never rejects anything the converter sends, for any input, and holds exactly the converter's sections |
| ChatMerger.Merger.Merge | pkg/streammerge/chatcompletion.go:54-121 | one chunk changes header, usage and choices as specified; only a parse error fails |
| ChatMerger.Merger.MergeToolCall | pkg/streammerge/chatcompletion.go:187-214 | a fragment grows the call of its index, or appends a new one after the calls seen |
| ChatMerger.Merger.Merged | pkg/streammerge/chatcompletion.go:244-262 | whatever order the map yields its keys in, the choices are every accumulated choice once, strictly ascending |
| ChatMerger.ListsUnique | pkg/streammerge/chatcompletion.go:244-257 | only one list has that property |
| ChatMerger.SortedLists | pkg/streammerge/chatcompletion.go:253-255 | sorting any listing of the map gives it |
| ChatMeaning.ResponseSays | pkg/streammerge/chatcompletion.go:54-262 | for every stream: id, model and time are the last ones reported, a choice is listed exactly when a fragment carried its index, and its role, finish reason, content, reasoning and each tool call's id, type, name and arguments are what its own fragments say |
| ChatMeaning.DetailsSay | pkg/streammerge/chatcompletion.go:148-185 | the token detail objects are present exactly when some chunk reported them |
| ChatIndependence.ChoiceFromOwnFragments | pkg/streammerge/chatcompletion.go:54-121 | a merged choice depends only on its own fragments, in order |
| ChatIndependence.InterleavingIrrelevant | pkg/streammerge/chatcompletion.go:54-121 | streams with the same header, the same usages and the same fragments per choice merge alike |
| ChatIndependence.SwapNeighbours | pkg/streammerge/chatcompletion.go:54-121 | neighbouring chunks of different choices may be swapped anywhere |
| ChatIndependence.ChunkingIrrelevant | pkg/streammerge/chatcompletion.go:54-121 | any chunk of any stream may be cut anywhere in the text, the reasoning or the arguments of any tool-call fragment of any of its choices, the rest travelling in a chunk of its own |
| ChatIndependence.UsageIsLastReport | pkg/streammerge/chatcompletion.go:123-185 | every usage field is the last non-zero value reported |
| CommutingSquare.ConvertedBlocks | pkg/engines/converter/claude.go:554-750 | what converting and then merging a canonical stream's content gives, and that it differs from the stream's own content exactly when a call follows reasoning |
| CommutingSquare.ConvertedResponse | pkg/streammerge/claude.go:46-220 | convert-then-merge gives this id, model, stop reason, usage and content |
| CommutingSquare.MergedResponse | pkg/streammerge/chatcompletion.go:54-257 | merge-then-convert gives this id, model, stop reason, usage and content |
| CommutingSquare.CommutingSquareExactly | pkg/engines/converter/claude.go:305-394 | on every canonical stream ended by `[DONE]` both paths give the same response if and only if the stream is agreeable |
| SmoothWrr.WeightedRoundRobin.New | pkg/engines/load-balancer/round_robin.go:77-109 | a balancer is built exactly from a non-empty list of non-negative weights, and its start state is one that the fairness results cover |
| SmoothWrr.WeightedRoundRobin.GetNextEngine | pkg/engines/load-balancer/round_robin.go:150-170 | the pick is the first largest raised weight, and the weights become that pick's successor state |
| SmoothWrr.Ledger | pkg/engines/load-balancer/round_robin.go:150-170 | after n picks a backend's weight is its start plus n times its weight minus the total per own pick |
| SmoothWrr.RunsAreSound | pkg/engines/load-balancer/round_robin.go:150-170 | over every run the sum is conserved, no weight falls below 1 - W, a backend is always returned and none of weight zero |
| SmoothWrr.Fairness | pkg/engines/moderator/weighted_service.go:90-115 | after any number of picks from any start, each count is within -m and 2 of its exact share |
| SmoothWrr.FullCycle | pkg/engines/load-balancer/round_robin.go:150-170 | from an all-zero start W picks choose every backend exactly w_i times and return to zero |
| ShardKeyWrr.ShardKeyWeightedRoundRobin.GetNextEngine | pkg/engines/load-balancer/shard_key_round_robin.go:287-362 | the prioritized candidate, else the first heaviest one, is picked, penalized, and all candidates accumulate; all-zero weights change nothing |
| ShardKeyWrr.SumConserved | pkg/engines/load-balancer/shard_key_round_robin.go:350-358 | whatever is excluded or prioritized, the sum of current weights is kept |
| ShardKeyWrr.StepSimulates | pkg/engines/load-balancer/shard_key_round_robin.go:287-362 | one pick is a plain pick one accumulation behind |
| ShardKeyWrr.Simulates | pkg/engines/load-balancer/shard_key_round_robin.go:287-362 | with nothing excluded or prioritized and a positive sum, the pick sequences are exactly those of plain round robin one accumulation behind |
| ShardKeyWrr.SimulatesExactly | pkg/engines/load-balancer/shard_key_round_robin.go:76-86 | from every start the constructor can leave, a non-empty run is a plain run one accumulation behind if and only if not all start weights are zero |
| ShardKeyFailover.Pick | pkg/engines/load-balancer/shard_key_round_robin.go:287-362 | a selection is the algorithm's pick among the names not excluded and moves the weights as it does, the prioritized name if it is available; it fails only when every name is excluded |
| ShardKeyFailover.Process | pkg/engines/load-balancer/shard_key_round_robin.go:183-277 | every attempt is the pick of its moment, no name is tried twice, prioritized backends come first and in order, attempts are bounded, the weights' sum is kept, and the answer is the last attempt's own unless every name has failed with attempts left and fewer names than backends |
| ShardKeyFailover.DistinctNamesSuffice | pkg/engines/load-balancer/shard_key_round_robin.go:211-215 | with distinct backend names the loop never runs out of engines, whatever they answer |
| ShardKeyFailover.ErrorLostExactly | pkg/engines/load-balancer/shard_key_round_robin.go:211-215 | against engines that always fail, the last error is lost if and only if two backends share a name and there are fewer names than attempts |
| ConcurrencyLimiter.Store.Acquire | pkg/engines/limiter/concurrency_limiter.go:199-219 | expired leases go, then the member enters exactly when there is room |
| ConcurrencyLimiter.Store.Renew | pkg/engines/limiter/concurrency_limiter.go:230-242 | only a member still present is rescored |
| ConcurrencyLimiter.AdmittedExactly | pkg/engines/limiter/concurrency_limiter.go:199-219 | a request is admitted exactly when fewer leases than the cap have not lapsed; these stay with their scores and the member is scored by the time of the call |
| ConcurrencyLimiter.RenewedExactly | pkg/engines/limiter/concurrency_limiter.go:230-242 | a renewal succeeds exactly for a member still there and changes its score alone |
| ConcurrencyLimiter.LeaseSafety | pkg/engines/limiter/concurrency_limiter.go:163-242 | over every interleaving in which holders renew in time, requests in flight all hold a lease and never exceed the cap |
| ConcurrencyLimiter.SetWithinCap | pkg/engines/limiter/concurrency_limiter.go:199-219 | the sorted set never exceeds the cap on any run |
| ConcurrencyLimiter.OveradmitsExactly | pkg/engines/limiter/concurrency_limiter.go:199-219 | an acquire takes the requests in flight over the cap if and only if they fill it and the lease of one of them has lapsed |
| ConcurrencyLimiter.LapsedLeaseOveradmits | pkg/engines/limiter/concurrency_limiter.go:163-197 | an instance: renewal once a minute is too slow for a timeout of 30 seconds |
| ColorMarker.NormalizeRates | pkg/engines/limiter/concurrency_color_marker.go:243-259 | negatives become 0, nothing else changes, and the flag says whether any did |
| ColorMarker.Store.Acquire | pkg/engines/limiter/concurrency_color_marker.go:292-331 | all tiers are purged, the member enters the first tier with room, and the reply is that tier's priority plus one, or 0 |
| ColorMarker.AdmittedExactly | pkg/engines/limiter/concurrency_color_marker.go:292-331 | a request enters a tier exactly when its unexpired leases leave room there and those of no higher tier do, and nothing else changes |
| ColorMarker.LeaseSafety | pkg/engines/limiter/concurrency_color_marker.go:292-365 | over every disciplined interleaving each tier's requests in flight hold leases and stay within its limit |
| ColorMarker.PriorityMeansHigherFull | pkg/engines/limiter/concurrency_color_marker.go:305-330 | a request gets priority p exactly when that tier has room and every higher tier is full or has limit 0 |
| ColorLimiter.BuildLimits | pkg/engines/limiter/concurrency_color_limiter.go:309-337 | the first limit is the total, or the sum of the clamped rest; the limiter is off exactly when there is neither |
| ColorLimiter.Store.Allow | pkg/engines/limiter/concurrency_color_limiter.go:119-200 | the priority's tier is acquired by the single or the dual script, with the higher tiers' slots reserved |
| ColorLimiter.AdmittedExactly | pkg/engines/limiter/concurrency_color_limiter.go:360-422 | a request must be admitted exactly when the unexpired leases leave room in tier 0 beyond the reserved places and in its own tier; both take it together or not at all |
| ColorLimiter.RejectedExactly | pkg/engines/limiter/concurrency_color_limiter.go:360-422 | at any point of any run a request is turned away exactly when one of the two is full |
| ColorLimiter.RenewEffect | pkg/engines/limiter/concurrency_color_limiter.go:446-479 | a renewal succeeds exactly for a member in both sets, and rescores it there alone |
| ColorLimiter.ReleaseEffect | pkg/engines/limiter/concurrency_color_limiter.go:424-444 | a release removes the member from tier 0 and its own tier and changes no other set |
| ColorLimiter.Store.Renew | pkg/engines/limiter/concurrency_color_limiter.go:446-479 | a member is renewed only while it is in all of its sets |
| ColorLimiter.Store.Release | pkg/engines/limiter/concurrency_color_limiter.go:424-444 | release removes the member from its sets and touches nothing else |
| ColorLimiter.Invariant | pkg/engines/limiter/concurrency_color_limiter.go:360-479 | in every reachable state each set is within its limit, members of tiers k and below hold at most rates[0] - k slots of tier 0, and an own-tier member is in tier 0 with the same score or has expired |
| ColorLimiter.ReservedKept | pkg/engines/limiter/concurrency_color_limiter.go:391-422 | one step of any kind keeps the reservation for every k |
| ColorLimiter.DroppedIsDead | pkg/engines/limiter/concurrency_color_limiter.go:461-479 | a member that tier 0 dropped has expired and cannot be renewed |
| ColorLimiter.RejectionNeedsHigherTiers | pkg/engines/limiter/concurrency_color_limiter.go:391-422 | a full tier 0 holds at least k members of tiers above k, for every k |
| ColorLimiter.LeaseSafety | pkg/engines/limiter/concurrency_color_limiter.go:360-479 | with timely renewal, requests in flight of tier k or below number at most rates[0] - k, and those of tier k at most rates[k] |
| TokenBucket.StaysSane | pkg/engines/limiter/request_limiter.go:152-182 | tokens stay between 0 and burst |
| TokenBucket.WindowBound | pkg/engines/limiter/request_limiter.go:159-178 | at most burst + floor(rate * (t2 - t1)) admissions fall in any window |
| TokenBucket.AdmittedAfterPause | pkg/engines/limiter/request_limiter.go:159-178 | once enough seconds for one token have passed since the last admission, the next request is admitted |
| TokenBucket.TtlUnobservable | pkg/engines/limiter/request_limiter.go:67-73 | a bucket whose key expires after the chosen TTL shows the same level as one that never expires |
| TokenBucket.ExpiryExactlyUnobservable | pkg/engines/limiter/request_limiter.go:67-73 | an expired key cannot be told from a kept one exactly when the kept one has refilled |
| RequestLimiters.RequestLimiter.Allow | pkg/engines/limiter/request_limiter.go:152-182 | the script admits exactly when the visible level is at least 1 and writes only then |
| RequestLimiters.TtlUnobservableInRuns | pkg/engines/limiter/request_limiter.go:152-182 | over every run an expiring bucket decides as one that never expires and stays in range |
| RequestLimiters.RejectionsLeaveNoTrace | pkg/engines/limiter/request_limiter.go:159-178 | deleting the rejected attempts from a run leaves the same bucket, so later decisions are the same |
| RequestLimiters.WindowBoundInRuns | pkg/engines/limiter/request_limiter.go:159-178 | the window bound for the admissions of any ordered run of attempts |
| TokenMeaning.AttemptExactly | pkg/engines/limiter/request_limiter.go:159-178 | a request is admitted exactly when stored tokens and inflow make one token and the bucket holds one; admission takes exactly one |
| TokenMeaning.NextAdmittedExactly | pkg/engines/limiter/request_limiter.go:152-182 | over every run with an expiring key, the next request is admitted exactly then |
| TokenMeaning.AdmittedAfterPauseInRuns | pkg/engines/limiter/request_limiter.go:159-178 | after any run, once one token has flowed in since the last admission, the next request is admitted |
| TokenMeaning.WindowBoundInReals | pkg/engines/limiter/request_limiter.go:159-178 | admissions in a window are at most burst plus rate times its length |
| TokenMeaning.TtlExactly | pkg/engines/limiter/request_limiter.go:67-73 | the TTL is one second more than the least number of seconds that fill the bucket |
| RequestLimiters.Marker.Acquire | pkg/engines/limiter/request_color_marker.go:224-281 | the first enabled tier with a token pays, and only its bucket is written; the reply gives its priority |
| RequestLimiters.MarkerWindowBound | pkg/engines/limiter/request_color_marker.go:238-280 | every tier of the marker obeys its own window bound |
| TokenMeaning.MarkedExactly | pkg/engines/limiter/request_color_marker.go:238-280 | over every run with expiring keys, the next request is taken by the first tier that has a token, which alone is debited, and by none exactly when none has |
| RequestLimiters.ColorLimiter.Allow | pkg/engines/limiter/request_color_limiter.go:106-190 | tier 0 pays alone; any other tier pays together with tier 0, if it has a token and tier 0 has more than the reserved number |
| RequestLimiters.TakeAt | pkg/engines/limiter/request_color_limiter.go:262-310 | the own and the tier 0 bucket are debited together or not at all, and no other bucket ever |
| RequestLimiters.LimiterWindowBound | pkg/engines/limiter/request_color_limiter.go:262-310 | all tiers together obey tier 0's window bound, and every tier its own |
| TokenMeaning.TakenExactly | pkg/engines/limiter/request_color_limiter.go:262-310 | over every run with expiring keys, the next request of a tier must be admitted exactly when its own bucket has a token and tier 0 more than the reserved number; both are then debited by one, else nothing changes |
| RequestLimiters.ReservationHonoured | pkg/engines/limiter/request_color_limiter.go:121-137 | right after tier k could be admitted, k requests of the highest priority are admitted at the same instant |
| TierExpiry.FillTiers | pkg/engines/limiter/request_color_limiter.go:74-88 | the constructors' rates and TTLs make every enabled tier full when its key expires |
| TierExpiry.MarkerExpiryUnobservable | pkg/engines/limiter/request_color_marker.go:224-281 | over every run the marker's expiring keys hold the same buckets and give the next request the same tier as keys that never expire |
| TierExpiry.LimiterExpiryUnobservable | pkg/engines/limiter/request_color_limiter.go:262-310 | the same for the tiered limiter's next decision |
| PostPaidBucket.TokenLimiter.Allow | pkg/engines/limiter/token_limiter.go:143-215 | a request is let in exactly when the refilled balance is positive, and nothing is written |
| PostPaidBucket.TokenLimiter.Deduction | pkg/engines/limiter/token_limiter.go:217-293 | the refilled balance is reduced by what was used, also below zero |
| PostPaidBucket.AllowedExactly | pkg/engines/limiter/token_limiter.go:143-215 | a check passes exactly when balance and inflow make a token |
| PostPaidBucket.DeductedExactly | pkg/engines/limiter/token_limiter.go:235-280 | a deduction takes exactly what was used off what the balance was worth |
| PostPaidBucket.ForgivenExactly | pkg/engines/limiter/token_limiter.go:235-280 | expiry leaves every later deduction unchanged exactly when the kept balance would by now be full |
| PostPaidBucket.TtlUnobservableWithinBurst | pkg/engines/limiter/token_limiter.go:114-126 | over every ordered run whose debt never exceeds the burst, expiry changes no decision and no balance |
| PostPaidBucket.UnnoticedExactly | pkg/engines/limiter/token_limiter.go:114-126 | over every ordered run, expiry changes no answer and no balance at any moment if and only if no check meets an expired key still in debt and no deduction one that would not yet be full |
| PostPaidBucket.DebtForgiven | pkg/engines/limiter/token_limiter.go:114-126 | any check that meets an expired key still in debt notices the expiry |
| Failover.Resolve | pkg/engines/load-balancer/shard_key_concurrency.go:156-223 | the hits of every key in turn, later keys first, each known name once |
| Failover.ResolvedIsRight | pkg/engines/load-balancer/shard_key_concurrency.go:183-215 | each known hit is listed once, as the last backend of its name and under its best key; later keys come first, and under one key the stored order is kept |
| Failover.SelectByConcurrency | pkg/engines/load-balancer/shard_key_concurrency.go:229-283 | the selection is a least loaded eligible backend, and none exactly when none is eligible |
| Failover.Process | pkg/engines/load-balancer/shard_key_concurrency.go:307-463 | for every world the loop ends with a complete log: hits are asked or skipped in order by capacity, strength and ceiling, then a least loaded backend not yet excluded is asked or skipped by its ceiling, it returns on success, a final error, a deadline, spent attempts, exhausted names or no selectable backend and never before, and the result is the log's outcome |
| Failover.RunIsShort | pkg/engines/load-balancer/shard_key_concurrency.go:307-463 | every iteration that does not return excludes a fresh name, so there are at most as many as backends |
| Failover.HeadroomKept | pkg/engines/load-balancer/shard_key_concurrency.go:340-358 | a request that is not a strong hit never goes to a backend seen over its ceiling, by the check of that very iteration |
| Failover.HitsInOrder | pkg/engines/load-balancer/shard_key_concurrency.go:326-365 | iteration k decides about hit k while there are hits: it is asked only with capacity, skipped only for a reason, and if strong only for lack of capacity |
| Failover.HitAskedExactly | pkg/engines/load-balancer/shard_key_concurrency.go:326-365 | in counts and capacities: a hit is asked exactly when it has capacity and comes from one of the top two keys, reserves nothing, or is found under its ceiling or with an unreadable count |
| Failover.SelectionExactly | pkg/engines/load-balancer/shard_key_concurrency.go:366-399 | in counts and capacities: the selection is selectable and, by cross products, no selectable backend is less utilized; it is skipped exactly when its count was read over its ceiling; there is none exactly when nothing is selectable |
| Failover.AskedUnderCeiling | pkg/engines/load-balancer/shard_key_concurrency.go:340-399 | a request not from one of the top two keys finds a backend that reserves headroom, count read, at or under ceiling times capacity |
| Failover.DispatchedOnce | pkg/engines/load-balancer/shard_key_concurrency.go:307-463 | no backend name is dispatched twice, and attempts are bounded |
| Failover.OnlyLastCounts | pkg/engines/load-balancer/shard_key_concurrency.go:405-463 | every request before the last failed with a retriable error, and the result is the last asked engine's own |
| Failover.OwnErrorsAreEarned | pkg/engines/load-balancer/shard_key_concurrency.go:345-412 | after a headroom rejection every backend has been passed over for a reason; after the other error every backend has been, or could not be selected |
| JsonEdits.ApplyUnder | pkg/engines/image-url-fetch/image_url_fetch.go:313-328 | edits below one child change only that child |
| JsonEdits.SetCommutes | pkg/engines/image-url-fetch/image_url_fetch.go:313-328 | edits at paths neither of which leads through the other commute |
| JsonEdits.SwapEdits | pkg/engines/image-url-fetch/image_url_fetch.go:313-328 | such neighbours may be swapped anywhere in a list of edits |
| ImageEdits.NormalizePass | pkg/engines/image-url-fetch/image_url_fetch.go:198-231 | the first pass applies exactly the normalizing edits and gathers exactly the distinct remote URLs |
| ImageEdits.InlinePass | pkg/engines/image-url-fetch/image_url_fetch.go:305-328 | the second pass applies exactly the inlining edits of the fetched images |
| ImageEdits.Process | pkg/engines/image-url-fetch/image_url_fetch.go:184-328 | both passes in order, an error exactly when an edit or a fetch failed |
| ArrayEdits.SpreadApplies | pkg/engines/image-url-fetch/image_url_fetch.go:305-328 | edits gathered element by element change every element by its own edits |
| ArrayEdits.SpreadApart | pkg/engines/image-url-fetch/replace_job.go:28-102 | edits of different elements never meet |
| ClaudeImages.CollectSlice | pkg/engines/image-url-fetch/extract.go:84-118 | the jobs of a nested content array, each with its full index path |
| ClaudeImages.SliceMakes | pkg/engines/image-url-fetch/replace_job.go:92-123 | the edits made from the collected paths are the nested content's own edits below its place in the body |
| ClaudeImages.SliceInlined | pkg/engines/image-url-fetch/extract.go:84-118 | at any nesting depth the edits give the structural map: remote images inlined, everything else unchanged |
| ClaudeImages.RequestApart | pkg/engines/image-url-fetch/replace_job.go:92-102 | all edits of a request are pairwise apart, so their order is irrelevant |
| ClaudeImages.InlineImages | pkg/engines/image-url-fetch/image_url_fetch.go:184-328 | the engine's new body is the structural map of the old one unless a fetch failed; no edit ever fails |
| ClaudeImages.OnlyUnusableRemain | pkg/engines/image-url-fetch/extract.go:66-118 | a second run finds exactly the jobs whose fetch gave nothing |
| ClaudeImages.BlockSays | pkg/engines/image-url-fetch/replace_job.go:111-123 | exactly the image blocks with a URL to fetch whose fetch gave data get a new source with that media type and data; tool results are mapped inside; all else stays |
| ClaudeImages.RequestSays | pkg/engines/image-url-fetch/extract.go:66-82 | exactly the messages with a content array are mapped, block by block |
| OpenAIImages.CollectField | pkg/engines/image-url-fetch/extract.go:32-61 | the jobs of one content field: image parts with a URL, in string or object form |
| OpenAIImages.RequestMakes | pkg/engines/image-url-fetch/replace_job.go:28-85 | for either pass the edits made from the jobs are the request's own edits |
| OpenAIImages.RequestPassed | pkg/engines/image-url-fetch/image_url_fetch.go:198-328 | each pass turns the body of its starting stage into that of its final stage |
| OpenAIImages.RequestApart | pkg/engines/image-url-fetch/replace_job.go:28-42 | within a pass all edits are pairwise apart |
| OpenAIImages.InlineImages | pkg/engines/image-url-fetch/image_url_fetch.go:184-328 | remote images are inlined, data URLs in string form become objects, everything else is unchanged, unless a fetch failed |
| OpenAIImages.PartSays | pkg/engines/image-url-fetch/replace_job.go:51-85 | which parts change, and their new url: the trimmed data URL, or one made of the fetch's media type and data, in object form |
| OpenAIImages.RequestSays | pkg/engines/image-url-fetch/extract.go:11-61 | in every message the parts of content and reasoning_content are mapped, and nothing else changes |
| Sse.WriteStream | pkg/octollm/handler.go:166-187 | what the handler writes for a list of chunks |
| Sse.ProcessStream | pkg/engines/client/http.go:266-348 | the reader's loop dispatches exactly the chunks of the parse of its text |
| Sse.LinesAppend | pkg/engines/client/http.go:275-283 | text that ends at a line's end can be read piece by piece |
| Sse.RoundTrip | pkg/octollm/handler.go:166-187 | printing and reading back gives the same chunks if and only if every chunk is printable |
| Sse.IgnoredAnywhere | pkg/engines/client/http.go:310-340 | comments and unknown fields may stand anywhere without effect, even inside an event |
| Sse.ExtraBlankLine | pkg/engines/client/http.go:283-308 | further blank lines between events change nothing |
| Sse.UnterminatedIsLost | pkg/engines/client/http.go:275-308 | an event without its final blank line is not dispatched |
| Sse.DataLinesJoin | pkg/engines/client/http.go:322-333 | several data lines of one event are joined without a newline |
| Sse.NoDataNoEvent | pkg/engines/client/http.go:283-290 | an event without data is dropped with its metadata |
| Sse.LaterFieldWins | pkg/engines/client/http.go:334-336 | of two fields of one name the later counts |
| Sse.ColonlessData | pkg/engines/client/http.go:310-333 | a data line without a colon contributes its own name |
| ModerationGate.ModerateStream | pkg/engines/moderator/moderator.go:163-265 | the gate delivers all batches before the first failing check, or everything up to the end, and the replacement of the first chunk held back otherwise |
| ModerationGate.OneMore | pkg/engines/moderator/moderator.go:208-214 | the incremental buffer equals the last maxRuneLen runes of all text so far |
| ModerationGate.PrefixDelivered | pkg/engines/moderator/moderator.go:197-265 | delivered chunks are a prefix of the input up to `[DONE]`; a replacement comes only after a block |
| ModerationGate.DeliveredExactly | pkg/engines/moderator/moderator.go:197-265 | everything is delivered and the request left unmarked exactly when every check passes and no extraction fails |
| ModerationGate.ReleasedAfterCheck | pkg/engines/moderator/moderator.go:215-232 | no chunk comes out before the check of its own batch, on the trimmed window of all text so far, has passed |
| ModerationGate.BlockedSays | pkg/engines/moderator/moderator.go:215-265 | a marked stream delivers whole checked batches; the next one failed, or the text broke off or the rest failed; the replacement is made for the first chunk held back |
| ModerationGate.PassedSays | pkg/engines/moderator/moderator.go:215-252 | an unmarked stream is delivered to its end, every batch and the rest checked on the trimmed last maxRuneLen runes |
| Text.TrimLoop | pkg/engines/moderator/moderator.go:57-65 | the two loops trim white space at both ends |
| Text.TrimIsMiddle | pkg/engines/moderator/moderator.go:57-65 | only white space is cut off, at both ends, and all of it |
| RepeatDetector.ExtractFrom | pkg/engines/moderator/repeat_detector/detector.go:22-53 | reports the shortest allowed pattern that the text ends with threshold copies of, and nothing exactly when there is none |
| RepeatDetector.ExtractRepeatPattern | pkg/engines/moderator/repeat_detector/detector.go:9-19 | the same for the trimmed text |
| RepeatDetector.OverlapIsPeriodic | pkg/engines/moderator/repeat_detector/detector.go:43-47 | a tail overlaps itself one pattern further on exactly when it is a whole number of copies |
| RepeatDetector.AnswerIsUnique | pkg/engines/moderator/repeat_detector/detector.go:22-53 | the answer is determined, and there is one exactly when some allowed length repeats |
| MemoryIndex.Index.InsertOrReplace | pkg/engines/image-url-fetch/cache/memory_index.go:64-87 | the key gets the entry, the previous one is returned, and byBucket stays the exact inverse of byKey, also when the key moves bucket |
| MemoryIndex.Index.DeleteKey | pkg/engines/image-url-fetch/cache/memory_index.go:46-61 | the key goes, its entry is returned, no empty bucket remains |
| MemoryIndex.Index.RemoveBucket | pkg/engines/image-url-fetch/cache/memory_index.go:89-106 | exactly the bucket's entries go, and each is returned once |
| MemoryIndex.DropIsInverse | pkg/engines/image-url-fetch/cache/memory_index.go:53-59 | unlinking a key from its bucket gives the inverse of the map without it |
| MemoryIndex.AddIsInverse | pkg/engines/image-url-fetch/cache/memory_index.go:80-85 | linking a new key gives the inverse of the map with it |
| CachePaths.DataPathsDiffer | pkg/engines/image-url-fetch/cache/file_store.go:77-81 | different buckets or keys have different files |
| CachePaths.NoSlashNoStrike | pkg/engines/image-url-fetch/cache/file_store.go:170-182 | a bucket argument without a slash never names a cached file |
| CachePaths.SlashStrikes | pkg/engines/image-url-fetch/cache/file_store.go:170-182 | with a slash it can be any of them |
| CachePaths.BucketsAreWindows | pkg/engines/image-url-fetch/cache/file_store.go:55-65 | two times share a bucket exactly when they fall in the same window |
| CachePaths.BucketNamesStart | pkg/engines/image-url-fetch/cache/file_store.go:55-65 | a bucket is named by the decimal number of its window's first second |
| FileStore.Store.Get | pkg/engines/image-url-fetch/cache/file_store.go:84-104 | gives the stored data and type, changes no content, and drops an entry whose file is gone |
| FileStore.Store.Put | pkg/engines/image-url-fetch/cache/file_store.go:107-153 | the key holds the new data in its new bucket and every other key is as before; files stay exactly the indexed paths, also when the key moves bucket |
| FileStore.Store.Delete | pkg/engines/image-url-fetch/cache/file_store.go:156-167 | exactly this key goes, with its file |
| FileStore.Store.DeleteBucket | pkg/engines/image-url-fetch/cache/file_store.go:170-182 | the bucket's keys go; files stay exactly the indexed paths if and only if the joined path is no other key's file |
| FileStore.PutKeeps | pkg/engines/image-url-fetch/cache/file_store.go:134-151 | writing, indexing and removing the old file keeps files and index in step and changes one key |
| FileStore.DeleteBucketKeeps | pkg/engines/image-url-fetch/cache/file_store.go:170-182 | the effect of a bucket removal on files, index and contents |
| FileStore.Run | pkg/engines/image-url-fetch/cache/file_store.go:84-182 | over any run every answer is the one determined by the operations so far |
| FileStore.GetGivesLastPut | pkg/engines/image-url-fetch/cache/file_store.go:84-182 | Get returns what the key's last Put stored unless something deleted it since |
| FileStore.PlainDeleteBucket | pkg/engines/image-url-fetch/cache/file_store.go:170-182 | a bucket argument without a slash deletes exactly the keys of that bucket |

## Left out

- Transport, request dumps, keep-alive comments, compression, metrics, tracing and logging.
- JSON parsing and printing, including the failure of marshalling tool-call arguments that are not JSON; duplicate object keys; null elements in arrays of choices and tool calls.
- convertRequestBody: the request direction is a field-by-field copy with no counterpart to compare with.
- Context cancellation inside the stream loops, goroutines and channel capacity.
- Redis transport and script errors, the EXPIRE 3600 of the sorted sets, and rounding of floating-point rates and sub-second durations.
- The retry loop of the plain round robin, which only counts attempts; the third copy of the pick in the moderator, which is the same function of weights and state; its MaxRuneLen minimum.
- filterDecreasingRates and filterIncreasingRates: no constructor calls them.
- The writing of shard-key hits back to Redis after a success and the trimming of long hit lists.
- PostPaidBucket.TokenLimiter.Deduction: models one call at a time, because two concurrent calls of the code may overwrite each other; the TTL is in whole seconds.
- Image engine: byte limits, retries and metrics of a fetch, and the use of the cache inside it; content given as a single object instead of an array, for which jsonparser.Set would have to create the path.
- Failover.Resolve: does not model the errors of single Redis reads, which count as a key without hits.
- Moderation of non-stream bodies and of requests; sampling appears as a check that may pass for any reason.
- Sse.ProcessStream: does not model the scanner's limit on the length of a line, nor processJSONStream.
- FileStore.Store.Put: the write to a temporary file and its rename are one step without faults; the root is an absolute clean path and keys are text.
- IndexHTTPStore: it fetches again over HTTP, and its index part is the same MemoryIndex.
- Rule engine, header and deny engines, composer, error tables, message hashes and traffic replication.
