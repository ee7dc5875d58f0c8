# DocIntel verification

A Dafny model of the stateful pieces of the DocIntel platform, with proofs of what they keep over whole runs.
Each module follows one component of the services and names it in its opening comment. A class holds the fields
the component updates in place; its methods are proved against a specification on values; the theorems are
about that specification, over all inputs, all runs or all interleavings. `dafny verify dfyconfig.toml` checks everything.

| module | component | what is proved |
|---|---|---|
| `Wrappers` | | a value that may be missing |
| `Text` | Python string operations | the facts about `strip`, `rstrip` and `join` the other modules use |
| `AnswerGuard` | trailing-refusal guard of the answer stream | an online filter over arbitrary cuts equals an offline definition; exactly when it does not |
| `TokenSplitter` | token-aware text splitter | the chunks tile the text in longest runs, coarser units undivided where they fit; exactly when they all fit; exactly when the recorded offsets are right |
| `ShardedIngestion` | sharded, resumable PDF ingestion | any run with failures and retries ends as one clean run; exactly when rows are missing or stale or labels differ |
| `StreamBus` | Redis Streams consumer group | the transition rules: publish, deliver, claim, acknowledge, count |
| `AnalyticsConsumer` | analytics batcher | conservation of copies and at-least-once delivery in every interleaving; exactly which messages can be recovered |
| `IngestionWorker` | ingestion handlers with retries | at most three ingestions per message; every acknowledgement follows a terminal event of its own; COMPLETED means ingested and persisted |
| `TenantDispatch` | round-robin dispatch per tenant | order per tenant and round the tenants, no starvation; exactly when a call dispatches everything |
| `DeletionWorker` | one attempt at a document deletion | what it leaves wherever it is cut off |
| `DeletionRuns` | deletions among uploads, ingestions and bulk deletions | exactly which steps leave orphans, what is owed, how a deletion is undone |
| `DeletionBackoff` | back-off, DEAD and progress of deletions | the time to DEAD as a function of the failures recorded, attained; progress |
| `ModelProfiles` | model profile resolver | pattern matching, best match, field-wise merge, exactly when the documented order holds, refinement of the uncached answer by a two-level TTL cache |
| `Compression` | conversation compression | the summarised spans tile the conversation; which messages the model is shown, and in what order |
| `RetrievalGate` | retrieval union, policy filter, rerank, gate | permitted, distinct, bounded, in rank order, each with its own score; when the service abstains |
| `JobRegistry` | progress replay over server-sent events | exact replay to every subscriber, and termination once the job is done |

External services are parameters or scripted steps: the tokenizer is a counting function, page extraction and
classification are functions of the document, stores and queues succeed, raise or take the process with them
before or after their effect, and a policy engine, a reranker or a summariser answers what it likes. Where
several tasks interleave, one action is what one task does between two awaits.

## What the code does differently from its documentation

Unless noted otherwise each of these is a lemma below; where the documented behaviour holds under a condition, that condition is proved exact.

- A refusal sentence glued to visible text is dropped or kept depending on where the stream is cut (`AnswerGuard.GuardExactness`).
- The splitter has no binary search, as reading it shows. A word over the limit is emitted whole (`TokenSplitter.ChunksBounded`, `TokenSplitter.LongWordIsEmittedWhole`), so the chunks all fit if the words do, and for a counter that does not shrink when text is added only then (`TokenSplitter.AllFitIff`).
- A chunk whose text begins anywhere earlier in the document is recorded there (`TokenSplitter.OffsetExactness`), as is one contained in an earlier chunk (`TokenSplitter.NestedChunkMisplaced`).
- A resumed PDF under the automatic domain hint ends with two labels (`ShardedIngestion.ResumedLabels`), and with a blank first shard stale rows survive (`ShardedIngestion.RetriesEqualCleanRun`).
- A PDF attempt that fails keeps its checkpoint when the document is deleted. If the same bytes are uploaded again the next attempt resumes there and reports the full chunk count, with the first rows missing (`ShardedIngestion.CompletionIff`, `ShardedIngestion.IntactIff`, `ShardedIngestion.ErasedPrefixIsLost`).
- A query event with a field that does not convert takes its batch with it and is never acknowledged; a pending event trimmed from the stream cannot be recovered (`AnalyticsConsumer.RecoverableIff`).
- `_dispatch_queued` starts one message per tenant, not all that are queued (`TenantDispatch.DispatchDrainsIffSingles`).
- An ingestion under way writes for a document that is being or has been deleted (`DeletionRuns.VectorsOwedIff`, `DeletionRuns.LateWriteOrphans`, `DeletionRuns.QueuedIngestionOrphans`), and its completion event undoes the deletion (`DeletionRuns.DeletionUndoneIff`, `DeletionRuns.CompletionLosesDeletion`).
- An upload stores the file before it saves the row. If it gets no further, the file is left without a row and without a task (`DeletionRuns.FilesOwedIff`, `DeletionRuns.CutOffUploadLeavesFile`, `DeletionRuns.CutOffReuploadLeavesFile`).
- An upload that finds no document row does not cancel a deletion task that is still pending; what is orphaned by it is orphaned for a time (`DeletionRuns.NoOrphansIff`, `DeletionRuns.NothingLeftOnceSettled`).
- A deletion task that was cancelled while its batch was running is revived if re-reading it raises (`DeletionWorker.CancelledTaskRevived`).
- A deletion task can be DEAD after about 140 minutes instead of more than 302, because a recording that raises is repeated by the catch block (`DeletionBackoff.DeadIsLate`, `DeletionBackoff.BoundIsAttained`).
- Profiles resolve tenant first, whether the match is exact or a wildcard, and rows are filtered by kind (`ModelProfiles.DocumentedOrderIff`, `ModelProfiles.KindFilterIff`).
- A conversation of five to eight messages is shown without its oldest ones, which no summary covers yet (`Compression.FaultlessGap`).
- A wake-up can be cleared unseen while a subscriber is yielding (`JobRegistry.WakeupLostIff`); the 25-second timeout makes up for it.

## Model

| member | source | states |
|---|---|---|
| `AnswerGuard.GuardEqualsBatch` | services/rag-service/src/pipelines/answer_guard.py:21-53 | For every way of cutting a stream into pieces, what `feed` and `finish` let through equals one function of the whole stream: a final refusal sentence that stands apart from earlier visible text is dropped together with the white space before it, anything else passes unchanged. Holds for every stream whose final sentence is not glued to a visible character |
| `AnswerGuard.GuardExactness` | services/rag-service/src/pipelines/answer_guard.py:37-53 | Over all streams and cuts: the guard meets that meaning if and only if it is not the case that the final sentence is glued to a visible character and a piece begins with it while nothing is held |
| `AnswerGuard.GluedOutcome` | services/rag-service/src/pipelines/answer_guard.py:43-46 | A glued final sentence is dropped exactly when a cut falls right before it with nothing held, because position 0 of the buffer passes for the start of the text |
| `AnswerGuard.GluedDependsOnCuts` | services/rag-service/src/pipelines/answer_guard.py:43-46 | Two cuts of one stream that end differently |
| `AnswerGuard.FeedsInvariant` | services/rag-service/src/pipelines/answer_guard.py:21-28 | After any pieces, emitted text followed by held text is the input so far, and what is held is white space followed by a prefix of the sentence |
| `AnswerGuard.DropIsSentence` | services/rag-service/src/pipelines/answer_guard.py:30-35 | `finish` discards exactly when visible text was emitted and white space followed by the whole sentence is held |
| `AnswerGuard.BareRefusalIsReleased` | services/rag-service/src/pipelines/answer_guard.py:8-9 | A stream that is only white space and the refusal sentence reaches the user unchanged, for every cut |
| `AnswerGuard.RefusalSentenceIsTrimmed` | services/rag-service/src/prompts.py:36-36 | The service's own sentence is non-empty and has no white space at either end, the one assumption of the theorems above |
| `AnswerGuard.TrailingRefusalGuard.constructor` | services/rag-service/src/pipelines/answer_guard.py:16-19 | A new guard holds nothing and has released nothing |
| `AnswerGuard.TrailingRefusalGuard.Feed` | services/rag-service/src/pipelines/answer_guard.py:21-28 | Working on the held buffer alone, emits exactly the new part of the text that the whole-text specification lets go |
| `AnswerGuard.TrailingRefusalGuard.Finish` | services/rag-service/src/pipelines/answer_guard.py:30-35 | Releases or drops what is held, as the specification says, and holds nothing afterwards |
| `AnswerGuard.TrailingRefusalGuard.HoldFrom` | services/rag-service/src/pipelines/answer_guard.py:37-47 | The bounded scan finds the earliest tail that may still become the sentence in the whole text, though it never looks back further than the sentence is long |
| `AnswerGuard.TrailingRefusalGuard.WhitespaceStart` | services/rag-service/src/pipelines/answer_guard.py:49-53 | The backward scan stops at the start of the white space |
| `AnswerGuard.StreamAnswer` | services/rag-service/src/pipelines/query.py:1025-1051 | The answer loop yields no empty token, and its tokens joined are the guard's output for that cut of the stream |
| `TokenSplitter.ChunksTileText` | services/ingestion-service/src/pipeline.py:171-245 | For every text and every token counter that gives blank text no tokens: the text is the raw chunks in order, each with visible content, with nothing but white space before, between and after them, across all recursion levels and the hard split |
| `TokenSplitter.TilingKeepsVisible` | services/ingestion-service/src/pipeline.py:171-245 | A tiling loses, repeats and reorders no visible character |
| `TokenSplitter.SplitKeepsVisible` | services/ingestion-service/src/pipeline.py:171-245 | So the visible characters of the chunks are those of the text |
| `TokenSplitter.ChunksBounded` | services/ingestion-service/src/pipeline.py:171-245 | For every text and counter: every raw chunk is within the token limit or is a whole word of the text, from one space or newline to the next, with no space in it and no newline but at its end |
| `TokenSplitter.AllFitIff` | services/ingestion-service/src/pipeline.py:171-172 | Every chunk fits, as the docstring promises, whenever every such word of the text fits; and for a counter that does not shrink when text is added, only then |
| `TokenSplitter.PlainStretchIsHeld` | services/ingestion-service/src/pipeline.py:189-213 | No cut of any level goes through a visible stretch without a space, or a newline but at its end: one chunk holds it whole |
| `TokenSplitter.LongWordIsEmittedWhole` | services/ingestion-service/src/pipeline.py:231-238 | A text of one word over the limit comes out as that word, which does not fit |
| `TokenSplitter.FittingParagraphIsHeld` | services/ingestion-service/src/pipeline.py:178-213 | For every text and counter: a visible paragraph that fits, up to and with the blank line behind it, is whole in one chunk |
| `TokenSplitter.FittingLineIsHeld` | services/ingestion-service/src/pipeline.py:178-213 | So is, in any paragraph, a line that fits |
| `TokenSplitter.FittingSentenceIsHeld` | services/ingestion-service/src/pipeline.py:178-213 | So is, in any line, a sentence that fits, up to and with its full stop and space |
| `TokenSplitter.FittingWordIsHeld` | services/ingestion-service/src/pipeline.py:178-213 | So is, in any sentence, a word that fits with the space behind it |
| `TokenSplitter.PiecesAreLongestRuns` | services/ingestion-service/src/pipeline.py:189-215 | At every level a text that does not fit comes out in runs of its segments that fit and would not with the next one; only a segment that does not fit by itself is split further |
| `TokenSplitter.HardSplitTakesLongestRuns` | services/ingestion-service/src/pipeline.py:223-245 | The hard split goes in runs of words that fit and would not with the next one, or in single words that fit nowhere |
| `TokenSplitter.OverlapMeaning` | services/ingestion-service/src/pipeline.py:247-261 | With an overlap, every chunk but the first begins with the tail of the one before and ends with its own text behind one space |
| `Text.WhiteSpaceIs` | services/ingestion-service/src/pipeline.py:173-173 | What `strip` takes off is exactly these 29 characters |
| `TokenSplitter.NothingEmptied` | services/ingestion-service/src/pipeline.py:215-215 | The fallback that would return the oversized text whole is never taken |
| `TokenSplitter.JoinSplit` | services/ingestion-service/src/pipeline.py:191-191 | Joining what `split` returns gives the text back |
| `TokenSplitter.WordsHaveNoSpace` | services/ingestion-service/src/pipeline.py:223-223 | The words of a split on a space hold no space |
| `TokenSplitter.OffsetAtOrBefore` | services/ingestion-service/src/pipeline.py:274-281 | `content.find` finds every raw chunk, at or before the place it was cut from |
| `TokenSplitter.OffsetExactness` | services/ingestion-service/src/pipeline.py:279-279 | The recorded offset is the place the chunk was cut from if and only if its text occurs nowhere earlier in the document |
| `TokenSplitter.NestedChunkMisplaced` | services/ingestion-service/src/pipeline.py:279-279 | In particular a chunk whose text is part of an earlier chunk is recorded inside that chunk |
| `TokenSplitter.RepeatedChunkMisplaced` | services/ingestion-service/src/pipeline.py:279-279 | A document whose second chunk repeats text of the first is recorded at the wrong place |
| `TokenSplitter.TokenAwareSplitter.SplitText` | services/ingestion-service/src/pipeline.py:171-179 | Computes the raw chunks of the specification |
| `TokenSplitter.TokenAwareSplitter.Recurse` | services/ingestion-service/src/pipeline.py:181-215 | Computes the pieces for the remaining separators, the branch for an oversized rest after the loop being unreachable; terminates by the separators left |
| `TokenSplitter.TokenAwareSplitter.PackParts` | services/ingestion-service/src/pipeline.py:193-213 | The loop over the parts gathers, flushes and recurses as specified |
| `TokenSplitter.TokenAwareSplitter.HardSplit` | services/ingestion-service/src/pipeline.py:217-245 | The two-pointer loop takes, again and again, the longest run of words that still fits, or one word that does not; terminates |
| `TokenSplitter.TokenAwareSplitter.AddOverlap` | services/ingestion-service/src/pipeline.py:247-261 | Chunk i becomes the tail of chunk i - 1, a space, and chunk i; the first stays |
| `TokenSplitter.TokenAwareSplitter.Run` | services/ingestion-service/src/pipeline.py:263-298 | One document per raw chunk, numbered in order, counted before the overlap, and pointing at a slice of the content that is that raw chunk |
| `ShardedIngestion.RetriesEqualCleanRun` | services/ingestion-service/src/pipeline.py:804-1067 | If nothing else touches the rows in between: after any sequence of failed attempts (an exception, which keeps the checkpoint, or process death, which loses it, before or after the store took the shard), an attempt that completes returns the chunk count of a clean run, every index of it holds the clean content with `split_id` equal to the index, and the table is exactly that if and only if the first shard produced documents or no stale row lay beyond |
| `ShardedIngestion.RetriesRefineOneRun` | services/ingestion-service/src/pipeline.py:804-1067 | With an explicit domain hint and that condition, table, checkpoint and result equal those of one uninterrupted run on an empty store |
| `ShardedIngestion.AttemptsKeep` | services/ingestion-service/src/pipeline.py:1013-1052 | In between, the table never disagrees with the clean run and covers every index below the checkpoint's offset |
| `ShardedIngestion.CompletionIff` | services/ingestion-service/src/pipeline.py:804-811 | After any history of attempts and of deletions of the document's chunks, which leave the checkpoint: an attempt that completes returns the clean run's chunk count; every row of it is there if and only if the attempt started without a checkpoint or with all rows below the checkpoint's offset still there; and no other row is there if and only if, besides, it cleared or there was none beyond the clean run |
| `ShardedIngestion.IntactIff` | services/ingestion-service/src/pipeline.py:576-578 | For every such history: whenever there is a checkpoint the rows below its offset are there, if and only if no deletion happened while a checkpoint with an offset above zero was kept |
| `ShardedIngestion.ErasedPrefixIsLost` | services/ingestion-service/src/pipeline.py:804-811 | From an empty store: an attempt fails on the second page, the document is deleted, the same bytes are ingested again; the attempt reports both chunks and the first is missing |
| `ShardedIngestion.AttemptStops` | services/ingestion-service/src/pipeline.py:1043-1054 | An attempt that raises keeps its checkpoint behind the last shard it finished, with the chunks so far, or as it was if it finished none; one that dies or completes leaves none |
| `ShardedIngestion.TurnWrites` | services/ingestion-service/src/pipeline.py:1013-1052 | A shard that goes wrong before the append leaves the table as it was; after it, all its chunks are there at their indices, nothing else changed unless the clear came with them |
| `ShardedIngestion.ExactTablesEqual` | services/ingestion-service/src/pipeline.py:1021-1034 | Two tables that are exactly the clean run's are equal |
| `ShardedIngestion.PagesInOrder` | services/ingestion-service/src/pipeline.py:889-958 | With per-page routing the clean run is the visible pages in order, each once, whatever the shard size |
| `ShardedIngestion.FreshLabels` | services/ingestion-service/src/pipeline.py:960-964 | An uninterrupted run gives every chunk one label |
| `ShardedIngestion.FirstTextDecides` | services/ingestion-service/src/pipeline.py:960-964 | With page routing that label is the classification of the first shard that has text |
| `ShardedIngestion.FirstShardDecides` | services/ingestion-service/src/pipeline.py:806-810 | Without page routing it is that of the first shard, and with an explicit hint it is the hint |
| `ShardedIngestion.ResumedLabels` | services/ingestion-service/src/pipeline.py:809-810 | Under the automatic hint a run resumed from a checkpoint labels the rest "general", so it agrees with an uninterrupted run if and only if nothing is left or that run's label is "general" |
| `ShardedIngestion.ResumedRunLosesLabel` | services/ingestion-service/src/pipeline.py:809-810 | From an empty store: an attempt that fails on the second page and one that completes leave a first chunk labelled "hr" and a second labelled "general" |
| `ShardedIngestion.StaleRowOutlivesBlankFirstPage` | services/ingestion-service/src/pipeline.py:1013-1041 | With a blank first page the clear is never sent and a row of an older version survives a clean run |
| `ShardedIngestion.IngestionService.AppendChunks` | services/document-service/src/main/kotlin/com/docintel/document/service/DocumentService.kt:508-539 | Refuses a document it does not know under the tenant and changes nothing; else the additive upsert, preceded by the clear if asked for, of the rows with the number each document brings; other documents keep theirs |
| `ShardedIngestion.IngestionService.SaveCheckpoint` | services/ingestion-service/src/pipeline.py:557-573 | Replaces this document's checkpoint and nothing else |
| `ShardedIngestion.IngestionService.DeleteCheckpoint` | services/ingestion-service/src/pipeline.py:576-578 | Removes this document's checkpoint and nothing else |
| `ShardedIngestion.IngestionService.ExtractShard` | services/ingestion-service/src/pipeline.py:889-998 | Collects the visible texts of the shard in order, each numbered by the offset and the documents found so far |
| `ShardedIngestion.VisibleTextsAppend` | services/ingestion-service/src/pipeline.py:982-998 | The chunks of a shard are those of its parts, in order |
| `ShardedIngestion.VisibleTextsOne` | services/ingestion-service/src/pipeline.py:982-998 | A part without a visible character gives no chunk, any other one |
| `ShardedIngestion.PayloadsAreNewRows` | services/ingestion-service/src/pipeline.py:1021-1034 | The number given at extraction and the index counted again for the payload agree on every chunk |
| `ShardedIngestion.IngestionService.IngestShard` | services/ingestion-service/src/pipeline.py:871-1052 | One turn of the loop has the effect of one turn of the specification, however it ends, and leaves other documents alone |
| `ShardedIngestion.IngestionService.RunPdfSharded` | services/ingestion-service/src/pipeline.py:769-1067 | The loop as a whole has the effect of one attempt of the specification |
| `StreamBus.RedisStreamBus.ClaimIdle` | lib/docintel-common/docintel_common/messaging.py:206-229 | Drops idle entries that were trimmed, redelivers the others, acknowledges the malformed ones and returns the decodable ones in order; a claim or an acknowledgement that raises returns nothing, although what it had claimed stays claimed |
| `StreamBus.AckAllSettles` | lib/docintel-common/docintel_common/messaging.py:187-188 | Acknowledging any messages, repeated or not, takes exactly these off the pending list and marks exactly those that were on it |
| `StreamBus.CountFollowsClaims` | lib/docintel-common/docintel_common/messaging.py:246-254 | The count a pending message shows goes up by one with every claim, and is 1 again once it is acknowledged |
| `StreamBus.DecodedAppend` | lib/docintel-common/docintel_common/messaging.py:206-229 | The decodable entries are handed over in the order they were claimed |
| `StreamBus.PurgeDropsTrimmed` | lib/docintel-common/docintel_common/messaging.py:206-229 | Exactly the idle entries found trimmed leave the pending list |
| `AnalyticsConsumer.CopiesConserved` | services/analytics-service-py/src/stream_consumer.py:107-203 | In every interleaving of deliveries, claims, overlapping flushes, rows that do not convert, failing inserts, failing acknowledgements and crashes, each copy handed over is in exactly one place: on its way, buffered, in flight, a row, skipped as malformed, or lost; so a message never has more rows than deliveries |
| `AnalyticsConsumer.AtLeastOnce` | services/analytics-service-py/src/stream_consumer.py:171-203 | In every reachable state, whatever is trimmed, a delivered message is acknowledged, pending with its true count, or trimmed from the stream, and an acknowledged decodable message has its row |
| `AnalyticsConsumer.RowsWithinDeliveries` | services/analytics-service-py/src/stream_consumer.py:171-203 | While a message is pending it has at most as many rows as Redis counts deliveries for it |
| `AnalyticsConsumer.PendingIsRecoverable` | services/analytics-service-py/src/stream_consumer.py:138-158 | From every reachable state a pending decodable message that converts and is still in the stream can still get its row and its acknowledgement |
| `AnalyticsConsumer.RecoverableIff` | services/analytics-service-py/src/stream_consumer.py:138-203 | After a crash at any point of any run a pending decodable message can still be acknowledged if and only if its fields convert to a row and it has not been trimmed from the stream |
| `AnalyticsConsumer.UnconvertibleStays` | services/analytics-service-py/src/stream_consumer.py:178-179 | In no run does a message that decodes and does not convert get a row or an acknowledgement |
| `AnalyticsConsumer.PoisonedBatch` | services/analytics-service-py/src/stream_consumer.py:171-203 | A batch with one payload that does not convert leaves no row and no acknowledgement and is gone from memory; from the consume loop all else the consumer held is gone with it, from the claim loop nothing |
| `AnalyticsConsumer.FailedInsertEndsFlush` | services/analytics-service-py/src/stream_consumer.py:181-191 | A flush whose insert raised, rows stored or not, acknowledges nothing any more |
| `AnalyticsConsumer.RaisedAckEndsFlush` | services/analytics-service-py/src/stream_consumer.py:193-203 | Nor does one whose acknowledgement raised: what is behind it stays pending with its rows |
| `AnalyticsConsumer.AbandonedClaimIsRetried` | services/analytics-service-py/src/stream_consumer.py:138-158 | What an abandoned claim had claimed can be claimed again, at one delivery more |
| `AnalyticsConsumer.TakenInOrder` | services/analytics-service-py/src/stream_consumer.py:107-136 | What is fetched joins the end of the buffer in stream order, the malformed entries being acknowledged |
| `AnalyticsConsumer.ReclaimedInOrder` | services/analytics-service-py/src/stream_consumer.py:141-154 | A claim that nothing disturbs has, in the protocol, the effect of the consumer's own method |
| `AnalyticsConsumer.FlushIsARun` | services/analytics-service-py/src/stream_consumer.py:171-203 | A flush of rows that convert, which nothing interrupts, is a run of the protocol |
| `AnalyticsConsumer.AnalyticsStreamConsumer.Reclaim` | services/analytics-service-py/src/stream_consumer.py:141-154 | Claims, acknowledges what cannot be decoded, extends the buffer by the rest; after a failing claim or acknowledgement the buffer is as it was |
| `AnalyticsConsumer.AnalyticsStreamConsumer.Flush` | services/analytics-service-py/src/stream_consumer.py:171-203 | The batch leaves the buffer in any case; it is inserted only if every payload converts, acknowledged only once inserted and up to an acknowledgement that raises, and counted only if all went through |
| `AnalyticsConsumer.AnalyticsStreamConsumer.Convert` | services/analytics-service-py/src/stream_consumer.py:51-70 | Building the rows succeeds exactly if every payload of the batch converts |
| `IngestionWorker.AtMostThreeIngestions` | services/ingestion-service/src/stream_worker.py:174-217 | In every interleaving, however often a message is reclaimed and queued, at most three handlers that find it pending run its ingestion, and all its ingestions together are no more than the times it was handed over |
| `IngestionWorker.AckFollowsTerminalEvent` | services/ingestion-service/src/stream_worker.py:181-251 | In every run an acknowledged message is malformed, or a handler of this very message has published COMPLETED or FAILED for its document |
| `IngestionWorker.CompletedWasIngested` | services/ingestion-service/src/stream_worker.py:206-243 | In every run a COMPLETED event of a message means that an ingestion of this message went through and its chunks were persisted |
| `IngestionWorker.StagedAreQueued` | services/ingestion-service/src/stream_worker.py:99-126 | Of what is read or claimed every decodable copy is queued and every malformed one acknowledged |
| `IngestionWorker.CrashEndsHandlers` | services/ingestion-service/src/stream_worker.py:49-132 | A crash leaves the stream and the topic as they are and no handler and no copy: nothing more is published until a message is handed over anew |
| `IngestionWorker.HandlerEffects` | services/ingestion-service/src/stream_worker.py:153-258 | What an uninterrupted handler does to the stream and the topic, for every outcome of its calls |
| `IngestionWorker.HandlerIsARun` | services/ingestion-service/src/stream_worker.py:153-258 | That handler is a run of the protocol |
| `IngestionWorker.SuccessCompletes` | services/ingestion-service/src/stream_worker.py:206-251 | Up to three deliveries, an ingestion that goes through and is persisted publishes COMPLETED, once and alone, and takes the message off the pending list; if one of the two calls raises, FAILED follows and the message stays |
| `IngestionWorker.MissingSourceFails` | services/ingestion-service/src/stream_worker.py:196-205 | A missing source publishes FAILED, once and alone, and takes the message off the pending list; if one of the two calls raises, FAILED follows and the message stays |
| `IngestionWorker.DeadLetter` | services/ingestion-service/src/stream_worker.py:174-184 | Past three deliveries nothing is ingested, FAILED is published and the message leaves the pending list; if the publish raises neither happens, if the acknowledgement raises it stays |
| `IngestionWorker.FailureLeavesPending` | services/ingestion-service/src/stream_worker.py:253-257 | Up to three deliveries a fetch, an ingestion or a persist that raises publishes FAILED at most and leaves the message pending |
| `IngestionWorker.StreamWorker.HandleMessage` | services/ingestion-service/src/stream_worker.py:153-258 | The nested exception handling acknowledges and publishes exactly what the protocol's handler does |
| `TenantDispatch.DispatchStartsEveryHead` | services/ingestion-service/src/stream_worker.py:75-88 | One call starts exactly the head of every non-empty tenant queue and leaves no empty queue in the dict |
| `TenantDispatch.DispatchDrainsIffSingles` | services/ingestion-service/src/stream_worker.py:75-76 | It starts all that is queued, as its docstring says, if and only if no tenant has more than one message waiting |
| `TenantDispatch.DispatchGoesRound` | services/ingestion-service/src/stream_worker.py:75-88 | One call starts the heads in the order in which the tenants' queues were opened |
| `TenantDispatch.OrderIsOfOpening` | services/ingestion-service/src/stream_worker.py:78-88 | A queue that is opened goes last; a queue that is not emptied keeps its place |
| `TenantDispatch.TenantOrderKept` | services/ingestion-service/src/stream_worker.py:99-126 | Over any mix of arrivals and calls, per tenant: what was started followed by what is queued is what arrived, in order |
| `TenantDispatch.CallsServe` | services/ingestion-service/src/stream_worker.py:75-88 | Over any mix of arrivals and calls, the tenant's messages started are exactly as many as the calls that found one queued |
| `TenantDispatch.ServedInTime` | services/ingestion-service/src/stream_worker.py:75-88 | No call goes by without serving a tenant as long as a message of those queued at the start is waiting |
| `TenantDispatch.NoStarvation` | services/ingestion-service/src/stream_worker.py:75-88 | The message in position k of its tenant's queue is started within k + 1 calls, whatever other tenants queue |
| `TenantDispatch.TenantDispatcher.Arrive` | services/ingestion-service/src/stream_worker.py:122-125 | An arrival opens or extends its tenant's queue |
| `TenantDispatch.TenantDispatcher.DispatchQueued` | services/ingestion-service/src/stream_worker.py:75-88 | The loop over a snapshot of the keys, popping while it iterates, has the specified effect |
| `TenantDispatch.TenantDispatcher.PopOne` | services/ingestion-service/src/stream_worker.py:78-81 | Starts one tenant's head and deletes an emptied queue |
| `TenantDispatch.TenantDispatcher.Reclaim` | services/ingestion-service/src/stream_worker.py:99-109 | Claimed messages are queued in order, then dispatched once if there were any |
| `DeletionRuns.NoOrphansIff` | services/document-service/src/main/kotlin/com/docintel/document/scheduler/DeletionTaskWorker.kt:85-157 | For every run of uploads and registrations cut off anywhere, ingestions that write in any state, completion events, single and bulk deletions, sweeps and attempts cut off anywhere: in every state on the way a document whose row is gone has left nothing, but for the file of an upload under way, and every flag that will be relied on is true, if and only if no step comes too late, a guard that can be read off the state before each step |
| `DeletionRuns.StepSoundIff` | services/document-service/src/main/kotlin/com/docintel/document/scheduler/DeletionTaskWorker.kt:85-157 | One step keeps such a state exactly if it is not too late |
| `DeletionRuns.FilesOwedIff` | services/document-service/src/main/kotlin/com/docintel/document/service/DocumentService.kt:96-150 | For every run: in every state on the way without an upload under way, the file of a document that is not alive is owed by an unfinished task, if and only if no upload that has stored its file ends without a row while the document is not alive and no task owes the file |
| `DeletionRuns.ChunksGoWithRow` | services/document-service/src/main/kotlin/com/docintel/document/scheduler/DeletionTaskWorker.kt:145-157 | In every run whatsoever no chunk outlives the row |
| `DeletionRuns.CutOffUploadLeavesFile` | services/document-service/src/main/kotlin/com/docintel/document/service/DocumentService.kt:126-143 | From nothing: an upload that stores the file and fails to save the row leaves it without a row and a task, and no run of whatever steps removes it unless the same content is registered |
| `DeletionRuns.CutOffReuploadLeavesFile` | services/document-service/src/main/kotlin/com/docintel/document/service/DocumentService.kt:110-143 | From nothing: over a document under deletion whose file is flagged as deleted, the rollback of such an upload leaves the task pending; it removes the row on that flag and the new file stays, owed by nobody |
| `DeletionRuns.VectorsOwedIff` | services/document-service/src/main/kotlin/com/docintel/document/scheduler/DeletionTaskWorker.kt:112-136 | For every run: in every state on the way the vectors of a document that is not alive are owed by an unfinished task, if and only if no ingestion write is unattended |
| `DeletionRuns.NothingLeftOnceSettled` | services/document-service/src/main/kotlin/com/docintel/document/scheduler/DeletionTaskWorker.kt:145-157 | So under both conditions, once every task is DONE or CANCELLED and no upload is under way, a document that is not alive has left nothing in either store |
| `DeletionRuns.DeletionUndoneIff` | services/document-service/src/main/kotlin/com/docintel/document/service/DocumentService.kt:263-306 | A document under deletion comes back to life exactly by the row of an upload or registration, the start of an ingestion or a completion event, which overwrite its status |
| `DeletionRuns.SavedRowCancels` | services/document-service/src/main/kotlin/com/docintel/document/service/DocumentService.kt:156-165 | A row saved over one found DELETING leaves none of the tasks known then pending, and changes nothing else of any task |
| `DeletionRuns.SavedIff` | services/document-service/src/main/kotlin/com/docintel/document/service/DocumentService.kt:104-136 | A row is saved unless it was a duplicate, or had been found and has gone since |
| `DeletionRuns.EndArrives` | services/document-service/src/main/kotlin/com/docintel/document/service/DocumentService.kt:263-306 | The completion event of an ingestion makes the row what the event says |
| `DeletionRuns.UnderWay` | services/document-service/src/main/kotlin/com/docintel/document/service/DocumentService.kt:96-306 | For every step: uploads, bulk deletions, ingestions and completion events under way are those begun and not ended |
| `DeletionRuns.CompletionLosesDeletion` | services/document-service/src/main/kotlin/com/docintel/document/service/DocumentService.kt:277-306 | From nothing: an ingestion that completes after the delete brings the document back, and the worker cancels a deletion nobody withdrew |
| `DeletionRuns.LateWriteOrphans` | services/ingestion-service/src/pipeline.py:1013-1018 | From nothing: an ingestion that writes after the deletion is DONE leaves vectors that no task owes, until the daily sweep |
| `DeletionRuns.QueuedIngestionOrphans` | services/document-service/src/main/kotlin/com/docintel/document/messaging/FilesAvailableConsumer.kt:74-98 | From nothing: a registration queues its ingestion without looking at the row again, so a deletion that came and went in between is followed by vectors no task owes |
| `DeletionRuns.UploadOverPendingTaskOrphans` | services/document-service/src/main/kotlin/com/docintel/document/service/DocumentService.kt:104-167 | From nothing: an upload that finds the row gone does not cancel the task still pending, which after a later deletion removes the row on its old flag; the new vectors are left until the new task cleans them up |
| `DeletionWorker.WriteInsideIsWriteAfter` | services/document-service/src/main/kotlin/com/docintel/document/scheduler/DeletionTaskWorker.kt:112-140 | A write that falls inside a `processTask`, after its vectors were dealt with, ends in the same state as one right after it |
| `DeletionWorker.StoreInsideIsStoreAfter` | services/document-service/src/main/kotlin/com/docintel/document/scheduler/DeletionTaskWorker.kt:130-140 | Files stored and vectors written during an attempt, once it has dealt with both stores, leave the attempt as it is and stay, as if they came after it |
| `DeletionWorker.OrphanFreeIffTruthful` | services/document-service/src/main/kotlin/com/docintel/document/scheduler/DeletionTaskWorker.kt:112-136 | A run that removes the document row leaves no orphan if and only if the persisted flags it started from were true of their stores |
| `DeletionWorker.ProcessLeaves` | services/document-service/src/main/kotlin/com/docintel/document/scheduler/DeletionTaskWorker.kt:85-143 | One `processTask`, wherever it is cut off, only removes; the row goes last; a flag comes on only with its store clean; no other task row changes |
| `DeletionWorker.ChunksGoFirst` | services/document-service/src/main/kotlin/com/docintel/document/scheduler/DeletionTaskWorker.kt:145-157 | The chunks go before the row, and the row only if that went through; DONE only after both |
| `DeletionWorker.RunSpares` | services/document-service/src/main/kotlin/com/docintel/document/scheduler/DeletionTaskWorker.kt:90-110 | On a living document, or for a task no longer pending, it changes at most its own row, and not its flags |
| `DeletionRuns.RerunReachesDone` | services/document-service/src/main/kotlin/com/docintel/document/scheduler/DeletionTaskWorker.kt:145-157 | From whatever state a crash left a pending task in, one run without faults completes it, trusting the flags it finds |
| `DeletionWorker.CancelledTaskRevived` | services/document-service/src/main/kotlin/com/docintel/document/scheduler/DeletionTaskWorker.kt:90-96 | A task cancelled since the batch was loaded comes back as PENDING if and only if re-reading it raises, the catch block's save takes effect and the count stays below ten |
| `DeletionBackoff.ProcessCounts` | services/document-service/src/main/kotlin/com/docintel/document/scheduler/DeletionTaskWorker.kt:132-140 | A run changes the attempt count by nothing or one, or by two when recording an attempt raises |
| `DeletionBackoff.CountsTwiceIff` | services/document-service/src/main/kotlin/com/docintel/document/scheduler/DeletionTaskWorker.kt:132-140 | It changes by two if and only if the run comes to record a failure, that recording raises and the catch block's is saved |
| `DeletionBackoff.DeadIsLate` | services/document-service/src/main/kotlin/com/docintel/document/scheduler/DeletionTaskWorker.kt:159-170 | In every run whatever happens in it: DEAD implies ten attempts counted, at least the back-offs at the counts visited since the first recorded failure, and more than 140 minutes; more than 302 minutes are certain if and only if ten attempts were recorded, none of the first nine counting twice |
| `DeletionBackoff.BoundIsAttained` | services/document-service/src/main/kotlin/com/docintel/document/scheduler/DeletionTaskWorker.kt:79-83 | For every pattern of failures counting once or twice there is a run that records just these, its last exactly those back-offs after its first, and one tick for each wait, however short a tick is |
| `DeletionBackoff.MinutesFromGaps` | services/document-service/src/main/kotlin/com/docintel/document/scheduler/DeletionTaskWorker.kt:79-83 | What a pattern waits is what single attempts wait, less the back-offs at the counts it jumped over |
| `DeletionBackoff.GapTotal` | services/document-service/src/main/kotlin/com/docintel/document/scheduler/DeletionTaskWorker.kt:79-83 | Ten single attempts wait 302 minutes |
| `DeletionBackoff.StuckIsReached` | services/document-service/src/main/kotlin/com/docintel/document/service/DocumentService.kt:391-426 | The state those runs start from is reached from nothing by a bulk deletion |
| `DeletionBackoff.DeadAfterFiveRuns` | services/document-service/src/main/kotlin/com/docintel/document/scheduler/DeletionTaskWorker.kt:134-139 | When every recording raises, the fifth failure makes the task DEAD 140 minutes and four ticks after the first |
| `DeletionBackoff.AttemptAdvancesIff` | services/document-service/src/main/kotlin/com/docintel/document/scheduler/DeletionTaskWorker.kt:132-170 | A run the process survives settles the task or raises its count if and only if the try block had done so or the catch block's save takes effect: a save that raises there stops the progress |
| `DeletionBackoff.SettledWithinTenAttempts` | services/document-service/src/main/kotlin/com/docintel/document/scheduler/DeletionTaskWorker.kt:159-170 | A task whose runs the process survives and whose catch-block saves take effect is settled within ten |
| `DeletionWorker.DeletionTaskWorker.Complete` | services/document-service/src/main/kotlin/com/docintel/document/scheduler/DeletionTaskWorker.kt:151-157 | Chunks, then the row with what is left of them, then DONE, stopping at the first call that raises or dies |
| `DeletionWorker.DeletionTaskWorker.Record` | services/document-service/src/main/kotlin/com/docintel/document/scheduler/DeletionTaskWorker.kt:159-170 | Counts the attempt, stamps it, and turns DEAD at the tenth |
| `DeletionWorker.DeletionTaskWorker.CleanStores` | services/document-service/src/main/kotlin/com/docintel/document/scheduler/DeletionTaskWorker.kt:112-130 | Each store is cleaned unless its flag is set; a failing one leaves its flag down and does not stop the other |
| `DeletionWorker.DeletionTaskWorker.Try` | services/document-service/src/main/kotlin/com/docintel/document/scheduler/DeletionTaskWorker.kt:86-136 | The body of the try block, with its early exits |
| `DeletionWorker.DeletionTaskWorker.RecordCaught` | services/document-service/src/main/kotlin/com/docintel/document/scheduler/DeletionTaskWorker.kt:137-140 | The catch block |
| `DeletionWorker.DeletionTaskWorker.ProcessTask` | services/document-service/src/main/kotlin/com/docintel/document/scheduler/DeletionTaskWorker.kt:85-143 | The task object mutated in place and the saved row end up as in the specification, including the second recording in the catch block |
| `ModelProfiles.BestMatchMeaning` | lib/docintel-common/docintel_common/model_profile_resolver.py:196-243 | The match is the first exact row, else a longest wildcard of the model's kind, else a longest wildcard of no kind; there is none if and only if every row is excluded, and a wildcard of another kind always is |
| `ModelProfiles.WildcardMatchesIff` | lib/docintel-common/docintel_common/model_profile_resolver.py:189-193 | A pattern ending in a star matches exactly the models that agree with it before the star, up to the case of letters |
| `ModelProfiles.WildcardMatchesExtensions` | lib/docintel-common/docintel_common/model_profile_resolver.py:191-192 | So it matches whatever goes on from there |
| `ModelProfiles.ExactMatchesIff` | lib/docintel-common/docintel_common/model_profile_resolver.py:193-193 | A pattern without a star at its end matches exactly the models equal to it up to case |
| `ModelProfiles.CaseIsIrrelevant` | lib/docintel-common/docintel_common/model_profile_resolver.py:189-193 | Changing the case of letters in model or pattern changes no match |
| `ModelProfiles.FirstNamedRowMatches` | lib/docintel-common/docintel_common/model_profile_resolver.py:217-231 | The first row that names the model is the match, whatever its kind and whatever wildcards there are |
| `ModelProfiles.LongestOwnKindMatches` | lib/docintel-common/docintel_common/model_profile_resolver.py:232-243 | Without one, it is the longest wildcard of the model's kind, the first of that length |
| `ModelProfiles.LongestKindlessMatches` | lib/docintel-common/docintel_common/model_profile_resolver.py:232-243 | Without that, it is the longest wildcard of no kind, and never one of another kind |
| `ModelProfiles.FindBestMatch` | lib/docintel-common/docintel_common/model_profile_resolver.py:217-243 | The single pass, which stops at the first exact row, computes that match |
| `ModelProfiles.Merge` | lib/docintel-common/docintel_common/model_profile_resolver.py:78-89 | The two nested loops compute the merge of any list of profiles, absent ones included |
| `ModelProfiles.MergedIsFirstSet` | lib/docintel-common/docintel_common/model_profile_resolver.py:78-89 | Each field of a merge is the first one set, in order |
| `ModelProfiles.MergeAssociative` | lib/docintel-common/docintel_common/model_profile_resolver.py:78-89 | A merged block of profiles may stand for the block |
| `ModelProfiles.MergeIdentity` | lib/docintel-common/docintel_common/model_profile_resolver.py:78-89 | The empty profile and the absent profile are identities |
| `ModelProfiles.FieldPrecedence` | lib/docintel-common/docintel_common/model_profile_resolver.py:346-365 | Each resolved field is the tenant match's, else the platform match's, else the built-in one |
| `ModelProfiles.RowGivesColumns` | lib/docintel-common/docintel_common/model_profile_resolver.py:246-269 | What a row gives for a field is its own column, the kind included, whether it has a kind or not |
| `ModelProfiles.TenantRowDecides` | lib/docintel-common/docintel_common/model_profile_resolver.py:346-365 | A field set by the tenant's first row for the model is that row's column, whatever the platform and the code say |
| `ModelProfiles.DocumentedOrderIff` | lib/docintel-common/docintel_common/model_profile_resolver.py:6-14 | For all rows and every field: the resolver gives the documented value (exact matches of both levels before wildcards) whenever a condition on which of the four matches exist and set the field holds, and, unless two sources set it to the same value, if and only if it holds |
| `ModelProfiles.SourcesAgreeIff` | lib/docintel-common/docintel_common/model_profile_resolver.py:346-360 | Code and documentation take the field from the same of the five sources if and only if that condition holds |
| `ModelProfiles.KindFilterIff` | lib/docintel-common/docintel_common/model_profile_resolver.py:21-29 | The wildcard chosen is the longest of all, as documented, if and only if that one is of the model's kind, or of no kind while none of the model's kind matches |
| `ModelProfiles.DocumentedOrderFails` | lib/docintel-common/docintel_common/model_profile_resolver.py:6-12 | The smallest case: a tenant wildcard beats a platform row with the exact name |
| `ModelProfiles.ModelProfileResolver.CacheLookup` | lib/docintel-common/docintel_common/model_profile_resolver.py:338-344 | Answers exactly while the entry has not expired; such an entry was merged from tenant rows read less than TTL ago and platform rows read less than 2 TTL ago, and from nothing read before the tenant's last invalidation |
| `ModelProfiles.ModelProfileResolver.Resolve` | lib/docintel-common/docintel_common/model_profile_resolver.py:310-318 | Every profile served, from the cache or not, is such a merge, for every history of resolves, edits of the tables, failing fetches and invalidations |
| `ModelProfiles.ModelProfileResolver.GetPlatformRows` | lib/docintel-common/docintel_common/model_profile_resolver.py:378-384 | Serves platform rows less than TTL old, read afresh when there are none |
| `ModelProfiles.ModelProfileResolver.FetchTenantRows` | lib/docintel-common/docintel_common/model_profile_resolver.py:398-412 | Reads the tenant's rows as they are now, or none on failure |
| `ModelProfiles.ModelProfileResolver.BuildAndCache` | lib/docintel-common/docintel_common/model_profile_resolver.py:346-365 | Merges, and stores the result under the model and tenant for TTL |
| `ModelProfiles.ModelProfileResolver.Invalidate` | lib/docintel-common/docintel_common/model_profile_resolver.py:320-332 | Drops the tenant's entries, or all, and the platform rows; every other entry stays and stays valid |
| `ModelProfiles.KeptAreOthers` | lib/docintel-common/docintel_common/model_profile_resolver.py:320-332 | What an invalidation keeps is exactly the other tenants' entries, as they are |
| `ModelProfiles.ResolveAfterInvalidation` | lib/docintel-common/docintel_common/model_profile_resolver.py:320-332 | The first resolve after invalidating the tenant, or everything, serves the tables as they are at both levels |
| `Compression.RunsStaySound` | services/rag-service/src/pipelines/query.py:355-431 | After any run of messages and of compressions that succeed or fail at any call, the turns given to the summariser are the first `summary_upto_count` messages, each once and in order, every summary extends the one before, and the count is zero or leaves the verbatim messages out |
| `Compression.CountNeverDecreases` | services/rag-service/src/pipelines/query.py:408-409 | As a run goes on the summarised count, the messages and the folds only grow |
| `Compression.CompressionClosesGap` | services/rag-service/src/pipelines/query.py:377-409 | Right after a stored compression every message is in the summary or among those shown verbatim, but for what arrived while the summariser worked |
| `Compression.NothingForgotten` | services/rag-service/src/pipelines/query.py:287-321 | No message is missing from what the model is shown if and only if at most the verbatim number lies beyond the summarised count; the summary comes first, and is the last one folded |
| `Compression.HistoryMeaning` | services/rag-service/src/pipelines/query.py:287-321 | The model is shown the summary, if there is one, and then the last messages, oldest first, as many as are kept verbatim |
| `Compression.FailureLeavesSummary` | services/rag-service/src/pipelines/query.py:394-431 | A summariser that raises or answers nothing, or a summary that cannot be stored, changes neither summary nor count and loses no message |
| `Compression.FaultlessGap` | services/rag-service/src/pipelines/query.py:377-391 | Even when every exchange is followed by a compression that succeeds, the oldest messages are missing from what the model is shown if and only if the conversation is longer than the verbatim number and not longer than the threshold |
| `Compression.DefaultsForgetThreeOrFour` | services/rag-service/src/pipelines/query.py:377-391 | With the default settings that is a conversation of three or four exchanges |
| `Compression.ConversationService.constructor` | services/rag-service/src/db.py:86-87 | A new conversation has no summary and covers no message |
| `Compression.ConversationService.MaybeCompress` | services/rag-service/src/pipelines/query.py:355-431 | The early exits, the slice, the summariser and the two writes have the effect of one step of the specification; the notice is written only after the summary was stored |
| `RetrievalGate.ShownIsPermitted` | services/rag-service/src/pipelines/query.py:656-830 | Whatever the services answer, every document shown was retrieved and explicitly allowed by the policy engine, and there are at most top-k |
| `RetrievalGate.ShownOnce` | services/rag-service/src/pipelines/query.py:678-686 | No chunk is shown twice if neither the first retrieval nor the reranker's result indices repeat one |
| `RetrievalGate.ShownIff` | services/rag-service/src/pipelines/query.py:656-716 | Documents are shown unless the retrieval raises, or there are candidates and the policy check raises; a failing expansion leaves the first candidates |
| `RetrievalGate.UnionMeaning` | services/rag-service/src/pipelines/query.py:678-686 | The first candidates stay in front, every expanded id is represented, nothing is invented, distinct ids stay distinct |
| `RetrievalGate.UnionInOrder` | services/rag-service/src/pipelines/query.py:678-686 | Behind the first retrieval come, in order, exactly the expanded candidates whose id neither it nor an earlier one has |
| `RetrievalGate.PermittedMeaning` | services/rag-service/src/components/opa.py:82-117 | Exactly the allowed documents pass: a denial and an unreachable policy engine drop the chunk |
| `RetrievalGate.PermittedInOrder` | services/rag-service/src/components/opa.py:82-117 | They pass in order, each as often as it was there |
| `RetrievalGate.SortMeaning` | services/rag-service/src/components/reranker.py:122-122 | The ranking is descending, keeps every document and keeps the order of equal scores |
| `RetrievalGate.RankMeaning` | services/rag-service/src/pipelines/query.py:718-804 | Skipping, reranking, degrading and failing show only chunks they were given, each once if the indices are distinct; scored documents are in descending order |
| `RetrievalGate.RankIsOfResults` | services/rag-service/src/components/reranker.py:109-123 | The ranking is made of the documents the results stand for, each the chunk at its result's index, from the end if negative, with that result's score; as many as results, by descending score, ties in result order |
| `RetrievalGate.ScoredIff` | services/rag-service/src/pipelines/query.py:718-804 | The reranker's results are used if and only if it is called, answers, and every index is one of the list |
| `RetrievalGate.UnscoredRank` | services/rag-service/src/pipelines/query.py:718-804 | Otherwise the ranking is a prefix of what was permitted: cut to the reranker's top-k if it is skipped or unusable, all of it if reranking is off or broken; when it counts as skipped and when as degraded |
| `RetrievalGate.FinalIsPrefix` | services/rag-service/src/pipelines/query.py:819-830 | What is shown is a prefix of the rank order of at most top-k documents |
| `RetrievalGate.Abstention` | services/rag-service/src/pipelines/query.py:718-830 | Whatever was retrieved, when the reranker answered, with a positive threshold and no fallback: something is shown if and only if one of its results reaches the threshold; all of it reaches min(floor, threshold), in rank order, and what is left out does not, unless top-k was reached |
| `RetrievalGate.GateMeaning` | services/rag-service/src/pipelines/query.py:806-830 | The gate on any descending scores, with a fallback or without: if one reaches the threshold, exactly the documents that reach the lower of threshold and context score, as many as top-k; else as many as fallback and top-k allow |
| `RetrievalGate.FallbackAnswers` | services/rag-service/src/pipelines/query.py:826-827 | With the fallback on, ranked documents are never all dropped, in whatever order they are |
| `RetrievalGate.ThresholdOnlyOnProbabilities` | services/rag-service/src/pipelines/query.py:806-815 | When the reranker did not score the documents no threshold changes what is shown |
| `RetrievalGate.RagService.Unite` | services/rag-service/src/pipelines/query.py:678-686 | The loop with its set of seen ids computes the union |
| `RetrievalGate.RagService.Validate` | services/rag-service/src/components/opa.py:82-115 | The loop keeps the allowed documents |
| `RetrievalGate.RagService.RunReranker` | services/rag-service/src/components/reranker.py:109-123 | Maps result indices to rescored documents and sorts them; an index out of range raises |
| `RetrievalGate.RagService.RankDocuments` | services/rag-service/src/pipelines/query.py:718-804 | The branches of step 7, with the skipped, degraded and candidate-count fields as they are left |
| `RetrievalGate.RagService.ApplyGate` | services/rag-service/src/pipelines/query.py:806-830 | The branches of step 8 |
| `RetrievalGate.RagService.Stream` | services/rag-service/src/pipelines/query.py:656-830 | Steps 5 to 8 in a row; a retrieval or policy check that raises shows nothing |
| `JobRegistry.ReplayExact` | services/data-loader/src/job_registry.py:41-50 | In every interleaving of pushes with any number of subscribers suspended at any yield, the retained events are the first 2000 pushed, and each subscriber has yielded, keepalives aside, exactly a prefix of them, ending only when the job is done |
| `JobRegistry.FinishedJobEndsStreams` | services/data-loader/src/job_registry.py:135-162 | Once the job is done and nothing more is pushed, a subscriber takes at most one more snapshot and a bounded number of moves, can always make one until it ends, and has then delivered every retained event, even if the closing event was not retained or a wake-up was lost |
| `JobRegistry.ClosingEventRetained` | services/data-loader/src/job_registry.py:41-43 | The job is done in any case, but its closing event is retained if and only if fewer than 2000 events were pushed before |
| `JobRegistry.WakeupLostIff` | services/data-loader/src/job_registry.py:147-160 | In every sound state of a job not done: an event pushed and retained is left unread at a subscriber's next wait, without a wake-up, if and only if it was pushed while the subscriber was yielding |
| `JobRegistry.TimeoutDelivers` | services/data-loader/src/job_registry.py:157-160 | The timeout makes up for it: the subscriber then reads everything it had missed |
| `JobRegistry.LeaverGetsNothing` | services/data-loader/src/job_registry.py:147-162 | A client that has disconnected gets nothing more in any run |
| `JobRegistry.Job.PushEvent` | services/data-loader/src/job_registry.py:41-45 | Retains the event unless the job is full and wakes every waiter in either case |
| `JobRegistry.Job.SetTotal` | services/data-loader/src/job_registry.py:81-85 | Sets the total and pushes it |
| `JobRegistry.Job.FileDone` | services/data-loader/src/job_registry.py:87-98 | Counts the file and pushes the count after it |
| `JobRegistry.Job.Finish` | services/data-loader/src/job_registry.py:100-114 | Marks the job done and pushes the closing event with the count so far |
| `JobRegistry.Job.Fail` | services/data-loader/src/job_registry.py:116-123 | Marks the job done, keeps the reason and pushes it |
| `JobRegistry.Job.RemoveWaiter` | services/data-loader/src/job_registry.py:56-60 | Removes the first occurrence of the waiter and nothing else |
| `JobRegistry.Subscription.constructor` | services/data-loader/src/job_registry.py:145-146 | A new subscriber stands at position zero with a registered waiter |
| `JobRegistry.Subscription.Advance` | services/data-loader/src/job_registry.py:147-162 | One stretch of the loop of `stream` up to its next suspension, as specified |

## Left out

- Clients of HTTP, Redis, Qdrant, ClickHouse, S3 and Postgres, text extraction, and calls to language models: scripted answers only. Of the PDF pipeline's writes only the Postgres chunk table is modelled; the ids of Qdrant points are not visible in this repository.
- TokenSplitter.TokenAwareSplitter.AddOverlap: says nothing about the token count of the overlapped text, because decoding and encoding again need not give the same tokens.
- ShardedIngestion.RetriesEqualCleanRun: lets nothing but attempts touch the rows (see ShardedIngestion.CompletionIff for deletions in between); compares labels only under an explicit hint, because a resumed run changes them (see ShardedIngestion.ResumedLabels); assumes a shard size of at least one, as the settings default has it, and extraction that repeats.
- ShardedIngestion.IngestionService.RunPdfSharded: writes to Qdrant, two ingestions of one PDF at a time, the fallback to the text path when the chunker cannot be imported, and progress events are not modelled; chunk ids are taken as collision-free digests.
- ShardedIngestion.IngestionService.ExtractShard: of a document's metadata only its number is modelled, not its page and how it was extracted.
- ShardedIngestion.IngestionService.IngestShard: a store that refuses the document counts as an exception before the store took the shard.
- StreamBus.RedisStreamBus.DeliveryCount: the error path, which also answers 1, is not modelled; with it the bound of three ingestions would not hold.
- StreamBus.RedisStreamBus.ClaimIdle: in the analytics protocol the error path is the abandoned claim.
- AnalyticsConsumer.AtLeastOnce: a graceful drain on shutdown is not claimed, because the consume loop swallows cancellation.
- AnalyticsConsumer.RecoverableIff: speaks of the consumer after a crash; before one, a message that was trimmed may still get its row from a copy in memory.
- IngestionWorker.AtMostThreeIngestions: counts the handlers that find their message pending; a copy queued before the acknowledgement and started after it may run once more.
- DeletionRuns.NoOrphansIff: a saved row, a status change and a sweep are each one step with respect to a `processTask`; row locks between transactions are not modelled.
- DeletionBackoff.SettledWithinTenAttempts: counts executed attempts; batches of the scheduler and their tenant context are not modelled.
- DeletionBackoff.DeadIsLate: time is counted in ticks of an unspecified length, a second at the most, and each wait outlasts its back-off by a tick at least.
- ModelProfiles.ModelProfileResolver.Resolve: fetches take no time, so a read and the expiry it starts share one clock value, and two resolves do not overlap.
- ModelProfiles.ModelProfileResolver.constructor: is that of the first resolver in a process; later ones share its caches, which are class attributes, and are the same object here.
- ModelProfiles.FindBestMatch: letter case is folded for ASCII only. The built-in profiles and the kind inferred from a model name are functions of the name.
- Compression.ConversationService.MaybeCompress: one compression at a time; messages have distinct creation times; the conversation's title and its deletion are not modelled.
- RetrievalGate.RagService.Stream: scores are real numbers; embedding, caching, routing, events and generation around these steps are not modelled.
- JobRegistry.FinishedJobEndsStreams: the lookup of jobs by id and tenant and the eviction of finished jobs after 300 seconds are not modelled; processed files may exceed the total, which each dataset overwrites.
- AnswerGuard.StreamAnswer: thinking and status items of the queue, which bypass the guard, are not modelled.
- Text: white space is the set of code points Python classifies so; other parts of Unicode play no role.
- The ingestion service's own job registry, which is nearly the same as the data loader's.
- The gateway's quota filter, authentication, request signing and caching, the web interface, settings, analytics queries, dataset adapters and page-routing thresholds: thin, or settled by reading one branch.
