# Stock assistant pipeline: verified model

A Dafny model of the pipeline in `stock-assistant-pipeline-intelligence` (SAPI) and of three algorithms
of its proofs of concept. Articles are analysed into EntityEvents; EntityEvents of one stock and type
are merged into Events by a sliding window; Events are scored. The layers talk over Redis streams that
deliver at least once, keep active Events in Redis, and store results in Postgres. Any call may fail,
and any process may crash between two calls. What is proved is that nothing is lost, duplicated or
scored wrongly across all that, and that the self-contained algorithms compute what they are for.

`dafny verify dfyconfig.toml` checks everything.

## How it is built

The protocol is a state machine. A step is what one coroutine does between two awaits, and any step of
any coroutine may come next; the theorems are about every run.

- `Pipeline` is the machine of the aggregation and scoring layers, `EntityAnalysis` that of the analysis
  layer with any number of processes, `EndToEnd` the two composed, `TimedStore` the store with time,
  `GroupExecutor` the schedules of group coroutines.
- `Ownership`, `Coverage`, `AckSafety`, `FlushCache` and `ScoreExactness` are the parts of the pipeline's
  inductive invariant (with `OwnershipSteps` and `CoverageSteps` for its preservation), and
  `PipelineTheorems` what follows for whole runs. `Progress` and `AnalysisProgress` are about what can
  still be done from any state, `ScoreRace` is about scorers whose upserts overlap.

The classes hold the same operations in the source's own form, run one call at a time, with failures and,
where it matters, the writes that come in between: `Tables` (EventRepository), `AggregationService`,
`AggregationStore`, `AggregationConsumer`, `EntityAnalysisService`, `ScoringService`, `StreamClient` and
the `Groups` of `GroupExecutor`. They use the functions of the state machines as their specification.

`SlidingWindow` is the merge arithmetic. `Subsequence`, `NameScore` and `NameSearch` are the company-name
search. `Lcs`, `FuzzyLookup` and `Ranks` come from the proofs of concept, `RuleScore` from scoring.

UUIDs and stream entry ids are natural numbers, times are integers in microseconds, and a version is an
Event's `aggregation_updated_at`. Fractions are exact.

## Assumptions

- One aggregation process. Groups are serialised in memory only; `docs/system-design.md` says so too.
- `aggregation_updated_at` strictly increases per Event. The code takes it from the wall clock.
- In `Pipeline` a key expires only after its last version was persisted. `TimedStore` proves this of runs in
  which a flush always succeeds within two flush intervals of the start of the last one that did.
- One SQL statement is atomic, except the score upsert, whose version check and write are two steps here. A
  scorer counts as one until the statement it sent has ended.
- SADI keeps serving an article it once served, at the same `source_url`.
- Name variants are what `_name_variants` returns: not empty, with a word if Latin, and all Latin if the
  first one is.

## Where the code does not do what is said of it

- `docs/system-design.md` lines 241-248 promise that a stored EntityEvent is announced at least once. One
  process can break this: it reclaims a message it is still analysing, stores nothing and ACKs, takes the
  reclaimed copy up only then, stores what a new analysis finds, and dies
  (`EntityAnalysis.OneProcessCanLose`). One process keeps the promise exactly if it stores rows only for
  messages not ACKed yet (`OneProcessLosesExactlyByLateStores`).
- Line 1170 there calls the per-process in-flight sets good enough with more than one process, since the
  database absorbs duplicates. Two processes can break the promise even with every store in time
  (`EntityAnalysis.TwoProcessesCanLose`, `NeverLosesExactlyWhen`).
- `docs/system-design.md` calls the conditional score upsert the correctness guarantee (section 5.5). Its
  condition is on the Event's version only: under READ COMMITTED the update may follow a newer version's score
  and replace it, and then nothing scores the newer version again (`ScoreRace.TwoScorersCanLose`). One scorer
  at a time, as deployed, is safe; more are exactly if the update itself skips newer scores
  (`ScoreRace.ScoresAreSafeExactlyWhen`).
- Nothing checks that the sliding window is below the maximum timespan. A group's `last_seen_at` is kept
  from going back exactly if it is (`SlidingWindow.MovesForwardExactlyIfWindowBelowSpan`).
- `_scoring_pool` is meant to hold every name worth scoring. It decides as all Latin names would, whatever
  the list, exactly if the Latin query has no word under three letters
  (`NameSearch.IndexDecidesExactlyForLongWords`, `NameSearch.ShortWordsAreMissed`). A Chinese query whose
  dropped suffix leaves a Latin variant misses the Latin names that variant would score
  (`NameSearch.ChineseSearchIsFullExactlyWithoutLatinVariants`).
- `ttl_for` is said to keep an Event until its window or lifespan ends. Counted from the merge, that covers
  articles dated ahead of the clock only up to the grace period
  (`TimedStore.KeysOutliveWindowsExactlyWithinGrace`).
- `lookup_indexed` is said to give the result of `lookup`. For an empty normalized query, or a query that
  is not Latin with a ratio of zero or less, it does not (`FuzzyLookup.AgreeExactlyWhen`).
- `docs/system-design.md` lines 337 and 421 announce an Event only when written and skip a version already
  scored. The code announces whatever is marked behind and scores again; the model follows the code.

## Model

| member | source | states |
|---|---|---|
| `PipelineTheorems.StepKeepsInv` | stock-assistant-pipeline-intelligence/app/aggregation/aggregation_service.py:72-219 | The one inductive invariant behind the pipeline theorems (ownership of EntityEvents, outbox coverage, ACK safety, flush cache, score exactness) is kept by every step of every coroutine, failures and crashes included |
| `PipelineTheorems.EveryVersionScoredOrOwed` | stock-assistant-pipeline-intelligence/app/aggregation/aggregation_service.py:203-219 | In every reachable state, with any number of scorers, every Event whose score no older one has replaced has its current version scored and announced, or its marker behind, or covered by an un-ACKed stream:event_aggregated message none of whose scorers read another version |
| `PipelineTheorems.CoverIsLiveWithoutFailures` | stock-assistant-pipeline-intelligence/app/scoring/scoring_consumer.py:66-72 | While no scorer fails, a covering message is still to be delivered or in the hands of a live scorer |
| `PipelineTheorems.ScoresMatchAVersion` | stock-assistant-pipeline-intelligence/app/scoring/scoring_service.py:71-115 | A score is never of a version newer than its Event's, and was computed from exactly the EntityEvents of the version it is stamped with, although the scorer reads the row and the memberships at different moments |
| `PipelineTheorems.ScoresNeverGoBack` | stock-assistant-pipeline-intelligence/app/persistent/event_score_repository.py:16-37 | A score never disappears, and the scored version of an Event never decreases unless an older score replaces a newer one of it |
| `PipelineTheorems.ScoresGoBackExactlyIfOverwritten` | stock-assistant-pipeline-intelligence/app/persistent/event_score_repository.py:16-37 | A run takes an Event's scored version back if and only if some upsert of the run, its version check passed, replaced a newer score of it |
| `ScoreRace.StepKeepsOneScorer` | stock-assistant-pipeline-intelligence/app/persistent/event_score_repository.py:16-37 | With one scorer at a time no upsert ever replaces a newer score |
| `ScoreRace.TwoScorersCanLose` | stock-assistant-pipeline-intelligence/app/persistent/event_score_repository.py:16-37 | A run of two scorers ends with an Event at a version that is marked announced, a score of an older one, and no message left |
| `ScoreRace.ScoresAreSafeExactlyWhen` | stock-assistant-pipeline-intelligence/app/persistent/event_score_repository.py:16-37 | No run of n scorers leaves a current version unscored and unowed if and only if n is at most 1 or the update skips newer scores; and likewise for taking a scored version back |
| `PipelineTheorems.OneEventForEver` | stock-assistant-pipeline-intelligence/app/aggregation/aggregation_service.py:139-201 | Over a whole run, every copy of an Event that ever lists an EntityEvent (in the table, the store, a flush snapshot, or loaded by a running merge) is a copy of one and the same Event |
| `PipelineTheorems.CopiesNeverConflict` | stock-assistant-pipeline-intelligence/app/persistent/event_repository.py:74-78 | Every copy that can be persisted (active, in a flush snapshot, or loaded by a running merge that may replace it, even after its key expired) lists each EntityEvent once, and the membership insert's ON CONFLICT DO NOTHING never meets a row of a different Event |
| `PipelineTheorems.AckedOnlyWhenFinal` | stock-assistant-pipeline-intelligence/app/aggregation/aggregation_consumer.py:138-213 | A message leaves the pending list only if it was dead-lettered, or its EntityEvent has no row, was late, is in its group's active Event, or is mapped to an Event |
| `PipelineTheorems.DecisionIsExact` | stock-assistant-pipeline-intelligence/app/aggregation/aggregation_service.py:131-164 | At every decision of every run: an EntityEvent already mapped or in the loaded Event is ACKed and changes nothing, one dated more than a window before that Event's last_seen_at is recorded as late and ACKed, and every other one goes on with an Event that lists it |
| `PipelineTheorems.LateExactlyWhenTooOld` | stock-assistant-pipeline-intelligence/app/aggregation/aggregation_service.py:154-160 | A step records an EntityEvent as late if and only if its job had loaded an active Event more than a window later, and found the EntityEvent in no Event |
| `PipelineTheorems.SkippedOnlyIfTooOld` | stock-assistant-pipeline-intelligence/app/aggregation/aggregation_service.py:154-160 | In every run, whatever counts as skipped was found so at some earlier step |
| `Progress.MessagesCanBeFinished` | stock-assistant-pipeline-intelligence/app/aggregation/aggregation_service.py:131-219 | From every reachable state, whatever failed or crashed before, some continuation ACKs any given message, dead-lettered only if malformed; and a stored EntityEvent that is in no stored Event and not late ends in an Event stored, announced and scored |
| `Progress.ActiveEventsCanBeFinished` | stock-assistant-pipeline-intelligence/app/aggregation/aggregation_service.py:72-96 | From every reachable state, some continuation stores, maps and announces any given active Event at its version and scores it, unless that version was announced before and its scorer failed or an older score replaced a newer one |
| `PipelineTheorems.ReplacedIsPersistedFirst` | stock-assistant-pipeline-intelligence/app/aggregation/aggregation_service.py:166-170 | When a group's active Event is replaced, the replaced one was stored, mapped and announced at its last version before the step that overwrote it |
| `PipelineTheorems.CacheEntriesFlushed` | stock-assistant-pipeline-intelligence/app/aggregation/aggregation_service.py:42-43 | In every reachable state an entry of the last-flushed cache means that version or a newer one is stored and marked announced |
| `PipelineTheorems.FlushCoversEverythingScanned` | stock-assistant-pipeline-intelligence/app/aggregation/aggregation_service.py:78-96 | A flush that succeeds leaves every scanned Event stored and announced, also the unchanged ones it skipped and the ones merged into meanwhile |
| `PipelineTheorems.QueuesAreFirstInFirstOut` | stock-assistant-pipeline-intelligence/app/aggregation/group_coroutine.py:31-65 | At every step of every run a group's queue is unchanged, gains the routed message's job at its end, loses its first job to the group, or is abandoned whole |
| `PipelineTheorems.DatesAreExact` | stock-assistant-pipeline-intelligence/app/aggregation/sliding_window.py:36-67 | In every reachable state active Events and stored rows are dated by the minimum and maximum publication time of exactly their EntityEvents |
| `PipelineTheorems.NoGapExceedsTheWindow` | stock-assistant-pipeline-intelligence/app/aggregation/sliding_window.py:36-57 | In every reachable state, each EntityEvent of an active Event dated before last_seen_at has another one after it, a window later at most |
| `PipelineTheorems.StepKeepsLastSeen` | stock-assistant-pipeline-intelligence/app/aggregation/sliding_window.py:36-77 | With the window below the maximum timespan, no step moves a group's last_seen_at back, and a successor starts strictly after it |
| `PipelineTheorems.LastSeenNeverGoesBack` | stock-assistant-pipeline-intelligence/app/aggregation/sliding_window.py:36-77 | With the window below the maximum timespan, a group's last_seen_at never goes back over any stretch of a run in which it keeps having an active Event |
| `PipelineTheorems.SuccessorIsLater` | stock-assistant-pipeline-intelligence/app/aggregation/aggregation_service.py:153-170 | When the gap exceeded the window, every EntityEvent the successor ever lists, at any later point of the run, is dated after the replaced Event's last_seen_at |
| `OwnershipSteps.StepKeeps` | stock-assistant-pipeline-intelligence/app/aggregation/aggregation_service.py:131-201 | Every step keeps the ownership invariant: an EntityEvent has at most one owning Event and version; every copy anywhere lists exactly the EntityEvents of its version; memberships agree; nothing merged is in neither place |
| `OwnershipSteps.PassedCheckMeansUnowned` | stock-assistant-pipeline-intelligence/app/aggregation/aggregation_service.py:190-201 | An EntityEvent that passes the duplicate check inside its group's queue belongs to no Event at all, although the check reads only the active Event and the table |
| `AckSafety.StepKeeps` | stock-assistant-pipeline-intelligence/app/aggregation/aggregation_consumer.py:138-213 | Every step keeps the accounting of messages: pending, dead-lettered, or final |
| `Coverage.PublishKeeps` | stock-assistant-pipeline-intelligence/app/aggregation/aggregation_service.py:211-217 | A publish, also one whose reply is lost and is repeated, keeps the coverage of every stored version |
| `CoverageSteps.ScoreStepKeeps` | stock-assistant-pipeline-intelligence/app/scoring/scoring_service.py:65-115 | Every step of a scorer, its failures, its ACK and the two parts of its upsert keep the coverage of every stored version not overwritten |
| `FlushCache.DoneMeansFlushed` | stock-assistant-pipeline-intelligence/app/aggregation/aggregation_service.py:203-219 | An announcer with nothing left to do has stored and marked every version it started with, or a newer one |
| `ScoreExactness.JoinIsExact` | stock-assistant-pipeline-intelligence/app/persistent/entity_event_repository.py:35-39 | Wherever memberships are exact, as in every reachable state, the join of an Event returns exactly the EntityEvents of the version stored with it |
| `EndToEnd.AnnouncedIsNeverLost` | stock-assistant-pipeline-intelligence/app/aggregation/aggregation_service.py:47-188 | In every run of the three layers, with any number of analysis processes and scorers, an announced EntityEvent awaits its merge, was skipped as late, is in an unflushed active Event, or belongs to an Event whose current version is scored from it, still owed to a scorer, or had its score replaced by an older one |
| `EndToEnd.NoEntityEventIsLost` | stock-assistant-pipeline-intelligence/docs/system-design.md:241-248 | While no two workers hold one article message, no row is stored for a message already ACKed and no score is replaced by an older one, every stored EntityEvent awaits its announcement or its merge, was skipped as late, awaits a flush, or belongs to an Event whose current version is scored from it or still owed to a scorer |
| `EndToEnd.AccountedExactlyWithTimelyStores` | stock-assistant-pipeline-intelligence/docs/system-design.md:241-248 | With one analysis process and one scorer at a time, as deployed, every stored EntityEvent is so accounted for at every moment of a run if and only if no row is stored for a message already ACKed |
| `EndToEnd.StepKeeps` | stock-assistant-pipeline-intelligence/app/aggregation/aggregation_service.py:47-70 | Every step of the composed layers keeps their invariants and the link between them; a lookup never finds an announced row missing |
| `Tables.EventRepository.PersistEvents` | stock-assistant-pipeline-intelligence/app/persistent/event_repository.py:151-190 | One transaction: on any failing statement nothing changes; else rows and memberships are those of upserting in order, and exactly the Events that are new or now newer are returned |
| `Tables.EventRepository.Mark` | stock-assistant-pipeline-intelligence/app/persistent/event_repository.py:209-215 | The marker moves forward only, and is at the given version or a newer one afterwards |
| `Tables.PersistAllAdvances` | stock-assistant-pipeline-intelligence/app/persistent/event_repository.py:62-71 | However stale the snapshots, a persisted batch leaves no stored version or marker older, and stores every listed Event at its version or newer |
| `Tables.MembershipsAreKept` | stock-assistant-pipeline-intelligence/app/persistent/event_repository.py:74-78 | A membership that exists keeps its Event; any other listed EntityEvent gets the first Event of the batch that lists it |
| `AggregationService.Service.FetchUnpublished` | stock-assistant-pipeline-intelligence/app/persistent/event_repository.py:200-207 | Returns exactly the listed Events whose stored version is not marked announced, once each |
| `AggregationService.Service.PersistAndPublish` | stock-assistant-pipeline-intelligence/app/aggregation/aggregation_service.py:203-219 | On success every passed Event is stored and marked at its version or newer and exactly the owed versions were announced; whichever statement, query, announcement or marker update fails, nothing goes back |
| `AggregationService.Service.Flush` | stock-assistant-pipeline-intelligence/app/aggregation/aggregation_service.py:72-96 | Success leaves every active Event stored and announced; the cache is replaced only then and stays sound either way; a successful flush without changes sends nothing |
| `AggregationService.Service.Merge` | stock-assistant-pipeline-intelligence/app/aggregation/aggregation_service.py:131-188 | An EntityEvent in no Event, without an active one or dated no more than a window before its last_seen_at, is in its group's active Event whenever ACKed; a duplicate or an older one changes nothing. A replaced Event is stored, mapped and announced first; only the write's reply or the ACK can fail after the store changed; without a failure everything is ACKed |
| `AggregationStore.EventAggregationStore.ScanAll` | stock-assistant-pipeline-intelligence/app/aggregation/event_aggregation_store.py:73-85 | Returns exactly the active Events of the groups whose keys have not expired since the scan, unless one of those groups has a colon in its exchange or stock code, when it raises |
| `AggregationStore.KeyRoundTrip` | stock-assistant-pipeline-intelligence/app/aggregation/event_aggregation_store.py:14-15 | Splitting a group's key gives the group back if and only if neither its exchange nor its stock code contains a colon; otherwise reading the key raises |
| `AggregationStore.KeysDiffer` | stock-assistant-pipeline-intelligence/app/aggregation/event_aggregation_store.py:14-15 | No other group shares the key of a group without colons |
| `AggregationStore.EventAggregationStore.UpsertActiveEvent` | stock-assistant-pipeline-intelligence/app/aggregation/event_aggregation_store.py:39-71 | Write and read back: the group's lookup gives the Event, rebuilt from key and fields, with its time to live, and no other colon-free group's lookup changes |
| `AggregationConsumer.Consumer.Route` | stock-assistant-pipeline-intelligence/app/aggregation/aggregation_consumer.py:138-177 | What a delivered message comes to before its lookup, and that it leaves the pending list here only dead-lettered; an id enters the in-flight set together with its routing |
| `AggregationConsumer.Consumer.HandOver` | stock-assistant-pipeline-intelligence/app/aggregation/aggregation_consumer.py:177-207 | The routing ends handed to the group, reported without a row, or failed with the id cleared; every id in flight is still being routed, queued or run |
| `AggregationConsumer.Consumer.AckReply` | stock-assistant-pipeline-intelligence/app/aggregation/aggregation_consumer.py:181-213 | A failed ACK clears the id again, whoever set it since, and every id in flight is still being routed, queued or run |
| `AggregationConsumer.Consumer.NothingLeftInFlight` | stock-assistant-pipeline-intelligence/app/aggregation/aggregation_consumer.py:183-191 | With nothing being routed, queued or run no id is in flight, so no redelivery is skipped for good |
| `GroupExecutor.StepKeeps` | stock-assistant-pipeline-intelligence/app/aggregation/aggregation_service.py:102-129 | Every step of callers, coroutines and the semaphore keeps permits, registrations and per-group order |
| `GroupExecutor.ExecutorIsSafe` | stock-assistant-pipeline-intelligence/app/aggregation/group_coroutine.py:38-65 | In every schedule free permits, live groups and permits granted but not yet used add up to max_concurrent; a key has at most one live group; what was enqueued for a key is what ran, in order and once, plus what its live group still holds |
| `GroupExecutor.NewcomersWait` | stock-assistant-pipeline-intelligence/app/aggregation/aggregation_service.py:98-129 | In every schedule, a group starts only for a call granted its permit, or for a new call while none waits and a permit is free |
| `GroupExecutor.Groups.Submit` | stock-assistant-pipeline-intelligence/app/aggregation/aggregation_service.py:102-129 | The group lookup and enqueue up to the first suspension: joins the live group, waits for a permit, or starts the group, as the schedule model says |
| `GroupExecutor.Groups.HandleTimeout` | stock-assistant-pipeline-intelligence/app/aggregation/group_coroutine.py:47-57 | Past the idle timeout the group ends exactly if its queue is still empty, giving its permit back |
| `GroupExecutor.Groups.TakeWork` | stock-assistant-pipeline-intelligence/app/aggregation/group_coroutine.py:47-60 | The loop takes the oldest unit of work |
| `SlidingWindow.MergeKeepsSpan` | stock-assistant-pipeline-intelligence/app/aggregation/sliding_window.py:13-67 | For every arrival, a merge result is dated by the minimum and maximum over exactly its EntityEvents, spans less than the maximum timespan, and has no gap above the window |
| `SlidingWindow.ExtendsExactlyWithinWindowAndSpan` | stock-assistant-pipeline-intelligence/app/aggregation/sliding_window.py:29-67 | The active Event keeps its id if and only if the EntityEvent, dated by its article or else by its row, is within a window of last_seen_at on either side and no two dates are then a maximum timespan apart; ids, group and version follow |
| `SlidingWindow.ReplacesOnlyForward` | stock-assistant-pipeline-intelligence/app/aggregation/sliding_window.py:36-77 | With the window below the timespan, an EntityEvent that is not late replaces the active Event only if dated after its last_seen_at |
| `SlidingWindow.MovesForwardExactlyIfWindowBelowSpan` | stock-assistant-pipeline-intelligence/app/aggregation/sliding_window.py:36-77 | That holds for every active Event and arrival if and only if the window is below the maximum timespan, which the code never checks |
| `SlidingWindow.LateExactlyWhenAnOlderEventWouldTakeOver` | stock-assistant-pipeline-intelligence/app/aggregation/sliding_window.py:70-77 | With the window below the timespan, an EntityEvent is late if and only if merging it would start an Event dated no later than the live one it takes over from |
| `SlidingWindow.MergedTtlBounds` | stock-assistant-pipeline-intelligence/app/aggregation/sliding_window.py:80-92 | For every Event the merge can return, the time to live lies between two flush intervals and the window plus two flush intervals |
| `SlidingWindow.TtlIsTheSoonerEnd` | stock-assistant-pipeline-intelligence/app/aggregation/sliding_window.py:80-92 | Past two flush intervals, the time to live ends with the window or the remaining lifespan, whichever is sooner, to the second below |
| `TimedStore.NoKeyExpiresUnpersisted` | stock-assistant-pipeline-intelligence/app/aggregation/sliding_window.py:80-92 | While a flush always succeeds within two intervals of the start of the last one that did, no key past its expiry holds a version not persisted, however many flushes fail in between |
| `TimedStore.KeysLastExactlyForTwoIntervals` | stock-assistant-pipeline-intelligence/app/aggregation/sliding_window.py:80-92 | Two intervals are the exact bound: with any longer one some run lets a key expire unpersisted |
| `TimedStore.KeysOutliveWindowsExactlyWithinGrace` | stock-assistant-pipeline-intelligence/app/aggregation/sliding_window.py:80-92 | In every run no key expires while an EntityEvent of that moment would still extend its Event, if and only if no EntityEvent is dated further ahead of its merge than two flush intervals less one second and two microseconds more |
| `EntityAnalysis.BatchIsStored` | stock-assistant-pipeline-intelligence/app/persistent/entity_event_repository.py:76-124 | After a committed batch every drafted stock of the article has a row, now or from before |
| `AnalysisProgress.ArticlesCanBeFinished` | stock-assistant-pipeline-intelligence/app/entity_analysis/cleaned_news_consumer.py:157-187 | From any state, some continuation ACKs a given article message with every EntityEvent stored for the article announced; rows that exist are kept, and without any the answer's are stored |
| `EntityAnalysis.StoredStaysUnique` | stock-assistant-pipeline-intelligence/app/persistent/entity_event_repository.py:16-25 | The conflict rule keeps one row per article and stock, also within a batch |
| `EntityAnalysis.AnnouncedOrStillOwed` | stock-assistant-pipeline-intelligence/app/entity_analysis/entity_analysis_service.py:39-100 | While no message is held by two workers at once and no row is stored for a message already ACKed, every stored EntityEvent is announced, or its article's message is un-ACKed or dead-lettered, whatever crashes and whichever articles share a source_url |
| `EntityAnalysis.OneProcessIsExclusive` | stock-assistant-pipeline-intelligence/app/entity_analysis/cleaned_news_consumer.py:166-177 | One process's in-flight set keeps a message from being held by two workers, also one handed out again |
| `EntityAnalysis.OneProcessCanLose` | stock-assistant-pipeline-intelligence/app/redis/stream_client.py:118-131 | A run of one process that reclaims a message while analysing it, ACKs it, takes the reclaimed copy up, and dies having stored an EntityEvent that nothing will announce |
| `EntityAnalysis.OneProcessLosesExactlyByLateStores` | stock-assistant-pipeline-intelligence/app/entity_analysis/cleaned_news_consumer.py:157-187 | A run of one process keeps the guarantee at every moment if and only if it stores rows only for messages not ACKed yet |
| `EntityAnalysis.CrashesLoseExactlyByLateStores` | stock-assistant-pipeline-intelligence/app/entity_analysis/cleaned_news_consumer.py:157-187 | A run of one process would lose an announcement for good by dying at some moment, with no worker left to make it, if and only if it stores a row for a message already ACKed |
| `EntityAnalysis.TakenUpInTimeIsTimely` | stock-assistant-pipeline-intelligence/app/entity_analysis/cleaned_news_consumer.py:166-177 | It does so if every message is still un-ACKed, or dead-lettered, when it passes the in-flight check |
| `EntityAnalysis.TwoProcessesCanLose` | stock-assistant-pipeline-intelligence/docs/system-design.md:1170 | A run of two processes, every store in time, that stores an EntityEvent and ACKs its article without ever announcing it, with nothing left in hand that would |
| `EntityAnalysis.NeverLosesExactlyWhen` | stock-assistant-pipeline-intelligence/app/entity_analysis/entity_analysis_service.py:39-100 | No run of n processes loses an announcement, at a moment or for good, if and only if there is none, or there is one and rows are stored only for messages not ACKed yet |
| `EntityAnalysisService.EntityEventRepository.PersistEntities` | stock-assistant-pipeline-intelligence/app/persistent/entity_event_repository.py:76-124 | One transaction: all of the batch that does not conflict, in order, or nothing; returns exactly the ids stored |
| `EntityAnalysisService.EntityEventRepository.FetchIdsByUrl` | stock-assistant-pipeline-intelligence/app/persistent/entity_event_repository.py:126-134 | Returns exactly the ids of the rows of the article's URL |
| `EntityAnalysisService.Service.FindEntityEvents` | stock-assistant-pipeline-intelligence/app/entity_analysis/entity_analysis_service.py:28-100 | A normal return announced, in this very call, exactly the EntityEvents stored for the article; an exception left all of the answer stored or none of it, and announced nothing that is not stored |
| `EntityAnalysisService.CleanedNewsConsumer.Route` | stock-assistant-pipeline-intelligence/app/entity_analysis/cleaned_news_consumer.py:126-187 | A message is ACKed only after its analysis ended well, dead-lettered exactly when out of retries or malformed, and its article is released whatever happens |
| `StreamClient.RedisStream.Publish` | stock-assistant-pipeline-intelligence/app/redis/stream_client.py:52-69 | Retries until written: at least one copy, one more for every lost reply, and nothing else |
| `StreamClient.CopiesAreLostRepliesAndOne` | stock-assistant-pipeline-intelligence/app/redis/stream_client.py:52-69 | A publish leaves one entry for its confirmed try and one for each lost reply before it |
| `StreamClient.RedisStream.ReadFrom` | stock-assistant-pipeline-intelligence/app/redis/stream_client.py:81-97 | Delivers the next entries in order, each for the first time, and makes them pending |
| `StreamClient.RedisStream.Autoclaim` | stock-assistant-pipeline-intelligence/app/redis/stream_client.py:104-131 | Claimed messages are idle pending ones, each returned with its count after one more delivery; those ACKed since are left out, and with room for all of them none of the others is |
| `StreamClient.DeadLetter` | stock-assistant-pipeline-intelligence/app/redis/stream_client.py:133-156 | The copy is on the dead-letter stream before the message can leave the pending list, also if the ACK fails |
| `ScoringService.EventScoreRepository.PersistScoreIfNotStale` | stock-assistant-pipeline-intelligence/app/persistent/event_score_repository.py:71-106 | Writes exactly if the expected version is stored at the check, over whatever another scorer wrote since; a re-score keeps the row's id; no other row changes |
| `ScoringService.Service.ScoreEvent` | stock-assistant-pipeline-intelligence/app/scoring/scoring_service.py:65-115 | With other writes between its reads and inside its upsert: an Event that moved on by the version check gets no score, else the row holds the score of the version stored then, and it is announced |
| `ScoringService.Consumer.Route` | stock-assistant-pipeline-intelligence/app/scoring/scoring_consumer.py:57-89 | Only a message whose Event was scored, is gone, or has moved on is ACKed |
| `Subsequence.SubsequenceSpan` | stock-assistant-pipeline-intelligence/app/common/hk_stock_list.py:184-203 | None exactly if there is no embedding; else no embedding ends earlier and none with that end starts later |
| `Subsequence.IsSubsequence` | stock-assistant-pipeline-intelligence/app/common/hk_stock_list.py:179-181 | True exactly if an embedding exists |
| `NameScore.ComputeScore` | stock-assistant-pipeline-intelligence/app/common/hk_stock_list.py:214-241 | The score tuple by the tightest span or the covered share; the character-set test before the scans never changes it |
| `NameScore.OwnSpellingScoresHighest` | stock-assistant-pipeline-intelligence/app/common/hk_stock_list.py:233-240 | For a Chinese query no name scores as high as the query's own spelling |
| `NameScore.ChineseScoresExactlyWhen` | stock-assistant-pipeline-intelligence/app/common/hk_stock_list.py:229-241 | A Chinese pair scores if and only if the query has two characters or more and is embedded in the name, or the name has three or more, fewer than the query, and is embedded in it |
| `NameScore.WordMatchesExactlyWhen` | stock-assistant-pipeline-intelligence/app/common/hk_stock_list.py:209-214 | A word matches an equal one and, from three letters on, its extensions |
| `NameScore.LatinScoresExactlyWhen` | stock-assistant-pipeline-intelligence/app/common/hk_stock_list.py:219-228 | A Latin pair scores if and only if every word of the name hits one of the query and the name has three characters or more apart from white space, or every word of the query hits one of the name |
| `NameScore.WhatSeparatesWords` | stock-assistant-pipeline-intelligence/app/common/hk_stock_list.py:221 | A single character makes no word exactly if it is white space to str.split |
| `NameScore.EmbeddingNamesOrder` | stock-assistant-pipeline-intelligence/app/common/hk_stock_list.py:234-238 | Names that embed a Chinese query rank by the tightest span, then by starting with it, then by being shorter |
| `NameScore.ContainedNamesOrder` | stock-assistant-pipeline-intelligence/app/common/hk_stock_list.py:239-240 | Names a Chinese query contains rank by length, below every name that contains the query |
| `NameScore.WholeNamesOrder` | stock-assistant-pipeline-intelligence/app/common/hk_stock_list.py:220-224 | Latin names found whole in the query rank by their number of words, above every name that only contains the query |
| `NameScore.ContainingNamesOrder` | stock-assistant-pipeline-intelligence/app/common/hk_stock_list.py:225-227 | Latin names that contain the whole query rank by fewer words, then by being shorter |
| `NameScore.LessIsTransitive` | stock-assistant-pipeline-intelligence/app/common/hk_stock_list.py:269-273 | The tuple order that max and the comparison use is transitive (LessIsTotal: total and irreflexive), also across lengths |
| `NameSearch.BuildNameIndex` | stock-assistant-pipeline-intelligence/app/common/hk_stock_list.py:152-176 | Whatever the order of visiting, the index holds exactly the non-empty names of the list, and both groupings exactly the names they should |
| `NameSearch.LatinPoolIsSharers` | stock-assistant-pipeline-intelligence/app/common/hk_stock_list.py:249-257 | A Latin query's pool is exactly the Latin names sharing the first letters of a word of three or more letters with it |
| `NameSearch.ScoringPairIsIndexed` | stock-assistant-pipeline-intelligence/app/common/hk_stock_list.py:219-228 | A Latin pair that scores shares an indexed prefix if and only if its fully matched side has a word of three letters |
| `NameSearch.IndexDecidesExactlyForLongWords` | stock-assistant-pipeline-intelligence/app/common/hk_stock_list.py:244-258 | A Latin query without an exact match is decided as by scoring every Latin name, for every list, if and only if it has no word under three letters |
| `NameSearch.PoolDecidesLikeFullScan` | stock-assistant-pipeline-intelligence/app/common/hk_stock_list.py:244-258 | For one list: where every scoring pair has a word of three letters on its matched side, the winners over the pool are the winners over all Latin names |
| `NameSearch.ShortWordsAreMissed` | stock-assistant-pipeline-intelligence/app/common/hk_stock_list.py:244-258 | Without one the pool can be empty although a name scores |
| `NameSearch.SearchIsFullScan` | stock-assistant-pipeline-intelligence/app/common/hk_stock_list.py:244-294 | For a Chinese query without Latin variants, and for a Latin one of long words over a list without mixed names, the search finds what scoring every listed name would |
| `NameSearch.ChineseSearchIsFullExactlyWithoutLatinVariants` | stock-assistant-pipeline-intelligence/app/common/hk_stock_list.py:258 | A Chinese query without an exact match is decided as by scoring every name, for every list, if and only if none of its variants is Latin |
| `NameSearch.BestScoringCodes` | stock-assistant-pipeline-intelligence/app/common/hk_stock_list.py:261-274 | Exactly the codes that attain the highest score of any variant pair |
| `NameSearch.Search` | stock-assistant-pipeline-intelligence/app/common/hk_stock_list.py:277-303 | Finds a code exactly if it is the only candidate; for a Chinese query without Latin variants, and a Latin one of long words over unmixed names, exactly if it is the only exact match or, without any, the only stock with the highest score over all listed names |
| `NameSearch.OrderDoesNotMatter` | stock-assistant-pipeline-intelligence/app/common/hk_stock_list.py:152-176 | The answer depends on the list alone, not on the order it was indexed or scanned in |
| `NameSearch.OwnNameNeverMisleads` | stock-assistant-pipeline-intelligence/app/common/hk_stock_list.py:285-291 | A stock's listed name never resolves to another stock, and resolves to it if and only if it has a variant and shares none with another stock |
| `NameSearch.HKStockListCache.BindReload` | stock-assistant-pipeline-intelligence/app/common/hk_stock_list.py:98-106 | In any interleaving of reloads the list and the index in place were built together |
| `NameSearch.HKStockListCache.LookupStock` | stock-assistant-pipeline-intelligence/app/common/hk_stock_list.py:306-313 | A found code is a key of the list in place; None exactly if no non-empty code is the only candidate; and so by a scan of every name for the queries Search covers |
| `Lcs.ComputeLcsLength` | poc/sapi/fuzzy-match/match_cases.py:24-31 | The rolling row computes the greatest length of any common subsequence |
| `Lcs.LcsLengthIsGreatest` | poc/sapi/fuzzy-match/match_cases.py:24-31 | Some common subsequence has the length of the recurrence and none is longer |
| `FuzzyLookup.Lookup` | poc/sapi/fuzzy-match/match_revised.py:31-67 | Finds a stock exactly if its best match is above every other stock's, with every fix on |
| `FuzzyLookup.LookupIndexed` | poc/sapi/fuzzy-match/match_revised.py:116-143 | The same over the indexed names and their best matches |
| `FuzzyLookup.OwnSpellingMatchesHighest` | poc/sapi/fuzzy-match/match_revised.py:46-59 | With a ratio up to 1 a listed name equal to the query matches, and above every other name |
| `FuzzyLookup.MatchesExactlyWhen` | poc/sapi/fuzzy-match/match_revised.py:46-59 | A Latin query matches exactly the names it is part of, any other exactly those that share a ratio of its letters, counted with repetition |
| `FuzzyLookup.MatchesOrder` | poc/sapi/fuzzy-match/match_revised.py:46-59 | For a Latin query the shorter name is higher; for another one more letters in common, then the longer common subsequence, then containing the query, then the shorter name |
| `FuzzyLookup.RmbCountersAreNeverFound` | poc/sapi/fuzzy-match/match_revised.py:41-42 | Neither lookup ever finds an RMB counter by name |
| `FuzzyLookup.AgreeExactlyWhen` | poc/sapi/fuzzy-match/match_revised.py:116-117 | The two agree for every list if and only if the normalized query is not empty and is Latin or held against a positive ratio |
| `Ranks.ComputeRanks` | poc/sapi/scoring-skills/rounds.py:397-408 | Each value gets the number of smaller values plus half of the number of its other equals |
| `Ranks.RanksKeepOrder` | poc/sapi/scoring-skills/rounds.py:397-408 | A value ranks below another exactly if it is smaller, so equals share a rank |
| `Ranks.RanksSum` | poc/sapi/scoring-skills/rounds.py:397-408 | The ranks add up to n (n - 1) / 2 |
| `RuleScore.ComputeSentiment` | stock-assistant-pipeline-intelligence/app/scoring/rule_score.py:26-48 | The weighted means that MeansByLabel, MirroringNegates, UnknownSourcesDoNotCount and SignedWithinStrength are about |
| `RuleScore.MeansByLabel` | stock-assistant-pipeline-intelligence/app/scoring/rule_score.py:12-48 | The signed score times the total weight is the weighted sum of the positive scores minus that of the negative ones, the strength the sum of all; without weight both are 0 |
| `RuleScore.MirroringNegates` | stock-assistant-pipeline-intelligence/app/scoring/rule_score.py:12-48 | Exchanging positive and negative labels negates the signed score and keeps the strength |
| `RuleScore.UnknownSourcesDoNotCount` | stock-assistant-pipeline-intelligence/app/scoring/rule_score.py:33-48 | A report of a source without a weight changes neither mean |
| `RuleScore.SignedWithinStrength` | stock-assistant-pipeline-intelligence/app/scoring/rule_score.py:26-48 | The signed score lies within plus and minus the strength, which is at most 1, and meets a bound exactly if all opinions that count point that way |
| `RuleScore.SourceWeights` | stock-assistant-pipeline-intelligence/app/scoring/rule_score.py:81-96 | Every named source gets its tier's weight, in [0, 10] |
| `RuleScore.MaxWeightIsMax` | stock-assistant-pipeline-intelligence/app/scoring/rule_score.py:63-65 | The authority score is the weight of some source of the Event, and no source weighs more |
| `RuleScore.ExchangeOutweighsPress` | stock-assistant-pipeline-intelligence/app/scoring/rule_score.py:75-96 | With the fallback weights the authority is 9 if the exchange reports, else 6 if a newspaper does, else 0 |
| `RuleScore.DimensionsOfReports` | stock-assistant-pipeline-intelligence/app/scoring/rule_score.py:51-70 | The strength dimension times the total weight is ten times the weighted sum of all scores, and the authority the greatest weight of a source |
| `RuleScore.HeatIsFullWhenAllReport` | stock-assistant-pipeline-intelligence/app/scoring/rule_score.py:67 | The heat is proportional to the share of active sources, and full exactly if at least as many report as are active |
| `RuleScore.SharesNeverCancel` | stock-assistant-pipeline-intelligence/app/scoring/scoring_service.py:41-52 | The fused score is 0.67 base plus 0.66 times the size of the impact, and the unfused score points in its direction; without impact the direction is the sentiment's |
| `RuleScore.ScoresWithinBounds` | stock-assistant-pipeline-intelligence/app/models/event_score.py:19-28 | From stored opinions and weights: every dimension is in [0, 10], the base score in [0, 8], the fused score in [0, 8.66] |
| `RuleScore.WhatEachDimensionAdds` | stock-assistant-pipeline-intelligence/app/models/event_score.py:19-28 | A point of event type, authority, strength or heat adds 0.30, 0.25, 0.15 or 0.10 to the base score |
| `RuleScore.GreatestScore` | stock-assistant-pipeline-intelligence/app/models/event_score.py:19-28 | 8.66 is reached exactly with every dimension at 10 and the impact at 5 either way |

## Left out

- Liveness: the theorems say what is still owed and, in `Progress`, that some continuation delivers it, not that the schedule takes that one. ScoringConsumer reclaims nothing, so a message whose scorer crashed or failed stays un-ACKed, and covers its version without being delivered again; an Event whose marker is behind is announced only by a later flush that still finds it active.
- PipelineTheorems.EveryVersionScoredOrOwed: a covering message whose scorer failed is one no scorer receives again; CoverIsLiveWithoutFailures says what holds without failures.
- PipelineTheorems.LastSeenNeverGoesBack: assumes the window below the timespan; without it the statement is false, by MovesForwardExactlyIfWindowBelowSpan.
- Progress.MessagesCanBeFinished: the continuation begins with a restart of the aggregation process, which loses only volatile state.
- AnalysisProgress.ArticlesCanBeFinished: the continuation uses a process that holds no article.
- Progress.ActiveEventsCanBeFinished: says nothing of an Event that has lost its place with its marker behind; nothing in the code announces that one again.
- NameSearch.SearchIsFullScan: one direction for a Latin query, whose exact condition over all lists is IndexDecidesExactlyForLongWords.
- NameSearch.PoolDecidesLikeFullScan: one direction, for one list, where winners can also agree by chance. The exact condition over all lists is IndexDecidesExactlyForLongWords.
- NameSearch.IndexDecidesExactlyForLongWords: ranges over every well-formed index. The name that shows a short word to matter repeats it with spaces, which the normalizer keeps only between letters or digits, so for a word with another character at its edge no real list need contain such a name.
- ScoringService.Service.ScoreEvent: the writes in between are whole committed flushes before the version check, and one write of another scorer after it; every other interleaving is in Pipeline and ScoreRace.
- AggregationService.Service.Flush: no merge or announcer runs in between; FlushCache covers that.
- AggregationService.Service.PersistAndPublish: a commit, announcement or marker update whose reply is lost, and so takes effect and fails, is in Pipeline, where any step may be followed by the failure of its job or flush.
- The `_enqueued` set within Pipeline: any number of units of work may be queued for one EntityEvent there, so every run of the code is a run of the model. AggregationConsumer models the set itself.
- The order of an ACK and the group's next unit of work: in Pipeline the ACK may come later, which only adds runs.
- Malformed scoring messages within Pipeline: they stay pending and touch nothing; ScoringService.Consumer.Route has them.
- `close` of groups and cancellation, beyond abandoning queued and running work and its announcements.
- Batches, blocking reads, retry counts against time, connection back-off, the worker pool and its pauses.
- The LLM skill, its clipping of answers, and SADI's crawlers and cleaner: their results are inputs.
- The JSON columns computed in SQL (`event_type_secondary`, `source_list`), and the fields the protocol does not read.
- `_normalize`, OpenCC and the regular expressions of `_name_variants`: a parameter; so are reading a query as a stock code and the sort of equal keys, which never decides.
- `name_matches_stock`, `_code_printed`, the download and parsing of the stock list, and its retries.
- Floating-point rounding: fractions and scores are exact.
- Python's `str.split` on white space outside ASCII: it is only used on Latin text here.
- HTTP routes, configuration, logging, error classes, connection management and the migrations beyond their unique constraints.
