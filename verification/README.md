# Verified model of the support agent's workers and services

The repository is a support agent: a FastAPI service, two RabbitMQ workers, a Kafka worker and a
PostgreSQL database. This project models the parts of it in which state, concurrency or text
processing make correctness hard to see, and proves what they promise.

* **Chunking** (`Text`, `Normalization`, `SentenceScanner`, `Chunking`, `Regrouping`, `BoundaryRuns`,
  `ChunkingProperties`, `ChunkingParagraphs`, `ChunkingStability`, `ChunkingServices`). The boundary
  expression is an explicit leftmost, non-overlapping scanner; the service is a class with the loops of
  the program, proved to compute the specified chunks.
* **Document ingestion** (`Failures`, `Brokers`, `Ingestion`, `IngestionSafety`, `IngestionHistory`,
  `IngestionSequential`, `IngestionConsumers`). A broker, a database and any number of workers that
  advance one query, commit or settlement at a time. A commit is applied, refused, or applied with its
  reply lost; a worker or its connection may go away between any two steps.
* **Ticket analysis** (`TicketAnalysis`, `TicketAnalysisSafety`, `TicketHistory`, `TicketConsumers`), the
  **Kafka worker** (`KafkaEvents`, `KafkaConsumption`, `KafkaSafety`, `KafkaWorkers`) and the two
  together (`EndToEnd`).
* **Suggested answers** (`SuggestedAnswers`, `SuggestedAnswerSafety`, `SuggestedAnswerServices`): the
  row with its CHECK constraints, the row-locked transactions, and the email between two of them.
* **Shutdown** (`ShutdownDrain`, `ShutdownWorkers`): both RabbitMQ workers have the same stop sequence.
* **Upload** (`UploadStreams`, `UploadServices`): the streamed check, the file, the row and the job.

Each protocol is a transition function over a state (module `Executions` has its runs), so that "over
every run" is a statement about every sequence of actions. Beside it stands the code as methods of
classes, statement by statement; between two awaits these methods let everybody else take any number
of steps, and every query, commit, send and settlement they make is an action of the protocol.

Ids stand for UUIDs. A session writes only the columns whose value changed since it was loaded, as
SQLAlchemy does; this is what makes the failure reason go wrong when two workers share a document.

Where the documentation and the code differ, the model follows the code:

* `README.md:125-127` says that the failure reason is null unless the status is failed, and a failed
  document is meant to have no chunks. Both hold when a document's deliveries are processed one at a
  time (`IngestionSequential.StatusIsTruthful`) and fail with two workers on one document
  (`IngestionSequential.ConcurrentFailedWithChunks`, `IngestionSequential.ConcurrentCompletedWithReason`).
* The upload check looks for the PDF prefix in the first read only, so a stream whose first read is
  shorter is refused (`UploadStreams.ShortFirstReadIsRefused`).
* An upload whose commit was applied but whose reply was lost ends with a row without its file
  (`UploadServices.DocumentService.Upload`), because the handler of the exception deletes the file.

## Model

| member | source | states |
|---|---|---|
| `ChunkingProperties.ChunksTile` | app/services/chunking_service.py:26-82 | The collapsed chunks, glued by the returned joints, are exactly the collapsed input. A joint is a space, or nothing after a chunk that is a limit-sized piece cut from a longer word; so no space is ever put into a word and none is lost. |
| `ChunkingStability.ChunkingIsStable` | app/services/chunking_service.py:10-53 | Re-chunking any produced chunk with the same limit returns exactly that one chunk, for every input and limit. |
| `Regrouping.ChunkCountIsMinimal` | app/services/chunking_service.py:26-36 | No split of the unit list into consecutive groups that fit the limit, separators counted, has fewer groups than `chunk` returns. |
| `Regrouping.GreedyWastesNoRoom` | app/services/chunking_service.py:26-36 | The output is a grouping of the whole unit list, and at every cut the group before it could not also have taken the next unit. |
| `Regrouping.GreedyIsTheOne` | app/services/chunking_service.py:26-36 | Fitting the limit and wasting no room determines the grouping: the output of the loop is the only one. |
| `Regrouping.GreedyStaysAhead` | app/services/chunking_service.py:28-35 | The exchange step: starting from a group that is no longer, the loop needs no more groups than any other grouping of the same units. |
| `ChunkingProperties.ChunksAreBounded` | app/services/chunking_service.py:17-36 | Every chunk is nonempty, at most the limit, and has no whitespace at either end. |
| `ChunkingParagraphs.BlankLinesAreKept` | app/services/chunking_service.py:44-60 | Two words that follow each other in one chunk follow each other in the text, and the whitespace between them in the chunk holds two line feeds exactly when it does in the normalized text, for every text and limit. |
| `ChunkingParagraphs.ParagraphsAreKept` | app/services/chunking_service.py:26-60 | Word by word over all chunks: the whitespace before a word is none at the start of a chunk or inside a cut word, a blank line where the normalized text has two line feeds or more, and otherwise a space or the same as in the text. |
| `ChunkingProperties.NoChunksIffBlank` | app/services/chunking_service.py:20-22 | There is no chunk exactly when the input is blank. |
| `ChunkingProperties.ChunksHoldTheWords` | README.md:274-278 | The words of the chunks are the words of the input in order, with exactly the words longer than the limit cut into limit-sized pieces and a remainder. |
| `ChunkingProperties.ShortWordSurvives` | README.md:276-278 | A word no longer than the limit is a whole word of some chunk. |
| `ChunkingProperties.FullWordIsChunk` | app/services/chunking_service.py:76-82 | A chunk that holds a word of the limit's length is that word alone: a hard-cut piece is never merged with a neighbour. |
| `BoundaryRuns.ScannerIsRunSplitter` | app/services/chunking_service.py:10-53 | On normalized text the leftmost, non-overlapping search with the three-branch expression finds the same sentences and separators as an independent description by whitespace runs: a run separates exactly when it holds two line feeds or follows a full stop, exclamation or question mark, with or without one of three closing quotes in between. |
| `SentenceScanner.MatchIsSpace` | app/services/chunking_service.py:10 | Every match of the boundary expression is nonempty and consists of whitespace. |
| `SentenceScanner.SentencesOk` | app/services/chunking_service.py:44-53 | Every sentence is a trimmed, normalized piece with no boundary inside; only the very first may carry an empty separator. |
| `SentenceScanner.SentencesWords` | app/services/chunking_service.py:44-53 | The sentences hold the words of the text, in order. |
| `Chunking.SplitOk` | app/services/chunking_service.py:62-82 | Splitting ends with nonempty, trimmed parts within the limit for every sentence and every limit. |
| `Chunking.FirstPartIsLongest` | app/services/chunking_service.py:65-79 | The part cut off an oversized sentence is its longest beginning within the limit that ends with a word, or exactly the limit when the first word is longer; the stripped rest is split in turn. This determines the split. |
| `Chunking.SplitWords` | app/services/chunking_service.py:62-82 | Splitting keeps the words, cutting exactly those longer than the limit into their pieces. |
| `Text.SpacesAre` | app/services/chunking_service.py:70 | Whitespace is exactly the listed characters. |
| `Text.WordsNormalize` | app/services/chunking_service.py:39-40 | Normalization of line ends and blanks keeps the words of the text. |
| `Text.NormalizeNormal` | app/services/chunking_service.py:39-40 | Normalized text is trimmed and holds no whitespace but single spaces and line feeds. |
| `Normalization.LineEndsAreNormalized` | app/services/chunking_service.py:39 | The two replacements keep every line, whether it ends with CR LF, CR or LF, and end each with one line feed. |
| `Normalization.CollapseBlanksIsTheOne` | app/services/chunking_service.py:40 | Collapsing blanks gives the one text with single spaces only that has the same other characters with blanks at the same places. |
| `ChunkingServices.ChunkingService.Create` | app/services/chunking_service.py:12-15 | Construction is refused exactly for a limit that is not positive. |
| `ChunkingServices.ChunkingService.SplitOversized` | app/services/chunking_service.py:62-82 | The loop over `remaining` ends and returns the specified parts. |
| `ChunkingServices.ChunkingService.AppendSentence` | app/services/chunking_service.py:55-60 | Extends its list argument in place by the specified units of the sentence, the first with the given separator and the others with a space, and changes nothing else. |
| `ChunkingServices.ChunkingService.Units` | app/services/chunking_service.py:38-53 | The loop over the matches returns the specified units. |
| `ChunkingServices.ChunkingService.Chunk` | app/services/chunking_service.py:17-36 | The grouping loop returns the specified chunks: bounded and trimmed, with the words of the text in order, and with blank lines between them exactly where the text has them; none exactly for blank text. |
| `IngestionHistory.StoredByOneCall` | app/models/document_chunk.py:20-22 | Over every run, with any number of workers, crashes and lost replies: the chunks of a document are none, or those it started with, or exactly the rows that one call of one worker prepared from its own text and its own vectors and then inserted while nothing was stored. |
| `IngestionHistory.ChunksAreWrittenOnce` | app/services/document_ingestion_service.py:69-75 | In every reachable state, a step changes the stored chunks of a document only from none, only by a bulk insert that takes effect, and exactly to that worker's rows. |
| `IngestionHistory.StoredForGood` | app/jobs/document_ingestion_handler.py:50-56 | Over every continuation stored chunks stay as they are, and an acknowledged or dead-lettered delivery stays where it is. |
| `IngestionHistory.LoserReconciles` | app/jobs/document_ingestion_handler.py:77-92 | A worker whose bulk insert meets chunks that are already there cannot commit it; refused by the unique constraint it does not retry, and with working queries and commit it completes the document and comes to the ACK. |
| `IngestionSafety.ChunksAreAllOrNothing` | app/services/document_ingestion_service.py:57-67 | In every reachable state the stored chunks of a document are none or exactly the indices 0..n-1, holding the n chunks of one text in order with a vector each; a completed document has chunks; a reason is at most 255 characters. |
| `Ingestion.PrepareIsOneIngestion` | app/services/document_ingestion_service.py:49-67 | The records of a call are exactly the chunks of its own stripped text, at indices 0..n-1, each with its own vector. |
| `IngestionHistory.EveryDeadLetterHasItsCause` | app/messaging/rabbitmq.py:138-200 | Over every run, a delivery in the failed queue had a malformed body, or was rejected by the worker that held it after its handler had looked for the document and found none, or after its handler failed on the third attempt or with an error that is not retried. |
| `IngestionHistory.DeliveryIsHeld` | app/messaging/rabbitmq.py:149-198 | In every reachable state, whatever step comes next, a delivery stays with the worker that holds it, through every handler step and retry wait, unless that worker settles it or loses its connection. |
| `IngestionHistory.HeldThroughout` | README.md:105-106 | Over every run in which the worker neither settles nor loses its connection, its delivery stays unacknowledged with it. |
| `IngestionConsumers.DocumentIngestionConsumer.ProcessMessage` | app/messaging/rabbitmq.py:135-213 | At most three handler attempts, each but the last failing, and one more after the k-th failure exactly when k is below three and it was trouble with a connection, so a permanent failure ends at its attempt. Exactly one settlement, an ACK or a reject; after the ACK the document's chunks are stored; a reject of a well-formed message has no recorded failure or the one that ended the attempts. |
| `IngestionSafety.StepInv` | app/jobs/document_ingestion_handler.py:42-92 | Every query, commit, settlement, crash and redelivery of any worker keeps the invariant and takes back nothing published, stored or settled. |
| `Ingestion.TaskStepKeeps` | app/jobs/document_ingestion_handler.py:42-92 | One step of one worker keeps its document and itself in order: among concurrent bulk inserts at most one goes through, because all of them hold index 0. |
| `Ingestion.PrepareFailsOnlyWhenBlank` | app/services/document_ingestion_service.py:49-55 | Ingestion ends without text exactly when the extracted text is blank: the second emptiness test never fires. |
| `IngestionSafety.JobsAreConserved` | app/messaging/rabbitmq.py:135-213 | Every delivery is in exactly one of ready, unacknowledged, failed queue or acknowledged; an acknowledged one has its document's complete chunk set; an unacknowledged one belongs to the task of the worker that holds it. |
| `IngestionSafety.RejectedWithoutFailure` | app/messaging/rabbitmq.py:152-159 | A call comes to reject without a recorded failure exactly when its handler looked for the document and found none. |
| `IngestionSafety.AttemptsAreBounded` | app/messaging/rabbitmq.py:149-151 | In every reachable state a call is at attempt 1, 2 or 3, and while its handler runs a later attempt than the first has followed a failure, and only trouble with a connection. |
| `IngestionSequential.StatusIsTruthful` | app/jobs/document_ingestion_handler.py:42-92 | When the deliveries of a document are processed one at a time, over every run of crashes, requeues and lost replies: `failed` exactly when a reason is stored, which is that of a failure, and then without chunks. |
| `IngestionSequential.WorkingIsProcessing` | app/jobs/document_ingestion_handler.py:58-62 | One delivery at a time: while a call works on a document or stores its chunks, the status is processing, without a reason and without chunks. |
| `IngestionSequential.FailureIsRecorded` | app/jobs/document_ingestion_handler.py:88-92 | One delivery at a time: when the commit that records a failure takes effect, the document is failed with exactly the reason of the call's failure, on the third attempt or of a kind that is not retried, and the call comes to reject. |
| `IngestionSequential.AcknowledgedIsCompleted` | app/jobs/document_ingestion_handler.py:42-92 | One delivery at a time: once a delivery is acknowledged its document is completed without a reason, with the complete chunks of one ingestion, and stays so over every continuation. |
| `IngestionSafety.InitInv` | migrations/versions/d4a0b1c2d3e4_document_ingestion_status.py:14-29 | The status the migration gives to documents that already have chunks satisfies the invariant. |
| `IngestionSequential.TaskStepSequential` | app/jobs/document_ingestion_handler.py:51-92 | What an undisturbed task has seen of its document stays true, so the columns its session leaves unwritten already hold what it assigned. |
| `IngestionSequential.ConcurrentFailedWithChunks` | app/jobs/document_ingestion_handler.py:85-91 | For every text that can be ingested, two workers on one document can end in `failed` with all its chunks stored. |
| `IngestionSequential.ConcurrentCompletedWithReason` | README.md:125-127 | For every text that can be ingested, two workers on one document can end in `completed` with a failure reason, which the documentation says is null unless failed. |
| `IngestionConsumers.DocumentIngestionConsumer.Handle` | app/jobs/document_ingestion_handler.py:42-75 | The handler, statement by statement amid interference, takes exactly the steps of the protocol: it succeeds only from the point of acknowledging. |
| `IngestionConsumers.DocumentIngestionConsumer.Ingest` | app/services/document_ingestion_service.py:32-73 | Preparing, inserting and committing the chunks takes exactly the steps of the protocol. |
| `IngestionConsumers.DocumentIngestionConsumer.MarkFailed` | app/jobs/document_ingestion_handler.py:77-92 | Returns the status it committed, completed exactly when it found chunks, or nothing when it could not. |
| `Failures.IsRetryable` | app/messaging/rabbitmq.py:43-64 | A failure is retried exactly when it is, kind by kind, a parse failure caused by a connection or timeout error, a pool timeout, an invalidated connection, SQLSTATE class 08 or one of four states, or no SQLSTATE with a driver, connection or timeout error behind it. |
| `Failures.IsRetryableForTickets` | app/messaging/rabbitmq.py:248-251 | For tickets, besides these exactly a slow and a busy language model. |
| `Failures.ReasonTexts` | app/messaging/rabbitmq.py:34-40 | Which text is stored for each kind of failure. |
| `IngestionSafety.FailureDecides` | app/messaging/rabbitmq.py:160-184 | Wherever the handler fails: on the first and second attempt trouble with a connection leads to the retry delay, and every other failure, and every third one, to `mark_failed` with its reason; the document is as before unless a write took effect although it failed. |
| `IngestionSafety.UnusableTextIsNotRetried` | app/services/document_ingestion_service.py:49-67 | A document without text or with the wrong number of vectors leads to `mark_failed` at once. |
| `Failures.FailureReason` | app/messaging/rabbitmq.py:31-40 | The stored reason is never empty and at most 255 characters. |
| `Brokers.Settle` | app/messaging/rabbitmq.py:146-205 | A settlement conserves the deliveries, takes nothing back, changes nothing exactly when it does not come from the holder, sends the delivery where its verdict says, and leaves all others where they are. |
| `TicketAnalysisSafety.OneAnalysisPerTicket` | app/jobs/ticket_analysis_handler.py:35-54 | One delivery at a time, over every run of crashes, requeues and lost commit replies: a ticket gets at most one analysis, and all events ever published for it carry the same analysis id. |
| `TicketAnalysisSafety.EventsAreTruthful` | app/messaging/rabbitmq.py:275-299 | With any number of workers, every event in the topic names an analysis committed for its ticket. |
| `TicketAnalysisSafety.JobsAreConserved` | app/messaging/rabbitmq.py:225-310 | Every delivery is in exactly one place, and an acknowledged one has its analysis committed and its event in the topic. |
| `TicketHistory.CompletedIsNeverRejected` | app/messaging/rabbitmq.py:272-299 | In every reachable state, a call that has its analysis from the handler is not about to reject its delivery, and that analysis is committed for its ticket. |
| `TicketHistory.CompletedIsNeverDeadLettered` | app/messaging/rabbitmq.py:272-299 | No step puts a delivery into the failed queue while the call that holds it has its analysis. |
| `TicketHistory.RequeuedAfterThreeFailures` | app/messaging/rabbitmq.py:275-297 | Over every run, a call comes to put its delivery back only after its first, second and third attempt to publish the event of its committed analysis all went unconfirmed. |
| `TicketHistory.RequeueReturns` | app/messaging/rabbitmq.py:296 | The settlement that follows makes the delivery ready again, with its analysis committed. |
| `TicketHistory.LostReplyMayDeadLetter` | app/messaging/rabbitmq.py:263-271 | A call that does not learn of its own commit can dead-letter its delivery: a reachable state has the analysis stored, no event announcing it, and the only delivery in the failed queue, for every failure that is not retried. |
| `TicketHistory.EveryDeadLetterHasItsCause` | app/messaging/rabbitmq.py:226-271 | Over every run, a delivery in the failed queue had a malformed body, or was rejected by the worker that held it after its handler had looked for the ticket and found none, or after its handler failed on the third attempt or with an error that is not retried, without returning an analysis. |
| `TicketHistory.RecordedForGood` | app/jobs/ticket_analysis_handler.py:41-54 | Over every continuation no analysis and no event is withdrawn, and an acknowledged or dead-lettered delivery stays where it is. |
| `TicketHistory.DeliveryIsHeld` | app/messaging/rabbitmq.py:236-299 | In every reachable state, whatever step comes next, a delivery stays with the worker that holds it, through every handler step, publish and retry wait, unless that worker settles it or loses its connection. |
| `TicketHistory.HeldThroughout` | app/messaging/rabbitmq.py:261-289 | Over every run in which the worker neither settles nor loses its connection, its delivery stays unacknowledged with it. |
| `TicketConsumers.TicketAnalysisConsumer.ProcessMessage` | app/messaging/rabbitmq.py:225-310 | At most three handler attempts, one more after the k-th failure exactly when k is below three and it was transient; at most three publishes, and one at least exactly when the delivery is not rejected. Exactly one settlement: the ACK comes after the event is in the topic, the requeue after exactly three publishes. |
| `TicketAnalysisSafety.RejectedWithoutFailure` | app/messaging/rabbitmq.py:239-246 | A call comes to reject without a recorded failure exactly when its handler looked for the ticket and found none. |
| `TicketAnalysisSafety.StepInv` | app/messaging/rabbitmq.py:225-310 | Every step of any worker keeps the invariant and takes back no row, event or settlement. |
| `TicketAnalysis.TaskStepKeeps` | app/jobs/ticket_analysis_handler.py:35-54 | One step of one worker keeps the tables, the topic and itself in order. |
| `TicketAnalysisSafety.TaskStepSequential` | app/jobs/ticket_analysis_handler.py:41-53 | An undisturbed worker that is about to create an analysis still knows there is none. |
| `TicketAnalysisSafety.FailureDecides` | app/messaging/rabbitmq.py:247-271 | Wherever the handler fails: on the first and second attempt trouble with a connection, a slow or a busy language model leads to the retry delay, every other failure and every third one to the rejection; nothing is stored unless the commit took effect although it failed. |
| `TicketAnalysisSafety.AttemptsAreBounded` | app/messaging/rabbitmq.py:236-271 | In every reachable state a call is at attempt 1, 2 or 3, and while its handler runs a later attempt than the first has followed a transient failure. |
| `TicketAnalysisSafety.AnalysisIsStored` | app/jobs/ticket_analysis_handler.py:46-54 | What the language model answered is stored as one row of the ticket under its new id if the commit takes effect, and the call goes on to publish that id exactly if it learns of it. |
| `TicketAnalysisSafety.ConcurrentDuplicates` | README.md:146-148 | Two workers on one ticket can each find nothing and each store an analysis. |
| `TicketAnalysisSafety.LatestIsUnique` | app/repositories/ticket_ai_analysis_repository.py:28-33 | The order by creation time and id singles out one analysis of a ticket. |
| `TicketConsumers.FindLatest` | app/repositories/ticket_ai_analysis_repository.py:25-34 | Returns the analysis of the ticket that no other of its analyses follows by creation time and then by id, or nothing exactly when there is none. |
| `TicketConsumers.TicketAnalysisConsumer.Handle` | app/jobs/ticket_analysis_handler.py:35-54 | The handler, statement by statement amid interference, returns the stored identity on redelivery and otherwise analyzes and commits once. |
| `TicketConsumers.TicketAnalysisConsumer.PublishEvent` | app/messaging/rabbitmq.py:276-297 | A confirmed send leads to the ACK, an unconfirmed one to a retry or, on the third attempt, to the requeue. |
| `KafkaEvents.AnalysisEventRoundTrip` | app/messaging/kafka.py:89-120 | What is published is read back unchanged. On decoded fields the converse holds too: no other record reads as that event. (Payload bytes with further members or another spelling of the identifiers decode to the same fields.) |
| `KafkaWorkers.KafkaWorker.RunWorker` | app/kafka_worker.py:46-92 | The loop, amid producers: every record it handled has the fields its topic asks for. On a normal return each partition's offset moved past exactly the handled records, consecutively. A failure on a record returns it: it is the next of its partition after the handled ones, and uncommitted unless only the reply to its commit was lost. |
| `KafkaEvents.TicketEventRoundTrip` | app/messaging/kafka.py:16-44 | A record reads as a ticket event exactly when it has version 1, names the ticket and has that ticket as its key; so a published one is read back unchanged and is never taken for an analysis event. |
| `KafkaSafety.CommittedMeansHandled` | app/kafka_worker.py:46-88 | Over every sequence of failures and restarts, each record below a committed offset is on a known topic, has version 1, the fields its topic asks for and its ticket as key, and in the notifications group its event was published to Redis. |
| `KafkaSafety.PublicationsFollowTheLog` | app/kafka_worker.py:54-77 | Per `analysis.completed` partition, the Redis publications with immediate repetitions removed are exactly the events of the first records: all committed ones and at most one more, each with its ticket and its analysis. Nothing is published for another topic or by the metrics group. |
| `KafkaSafety.BadRecordIsNeverSkipped` | app/kafka_worker.py:80-88 | A record without those fields, without its ticket as key or on another topic blocks its partition: whatever happens later, no offset past it is committed and nothing from it on is published. |
| `KafkaSafety.AdvancesExactlyOnAccepted` | app/kafka_worker.py:51-79 | An idle worker can move a partition past its next record exactly when the record has the fields its topic asks for and its ticket as key. |
| `KafkaSafety.OffsetsNeverGoDown` | app/messaging/kafka.py:47-60 | Committed offsets never go down and publications are never taken back, over every run. |
| `KafkaSafety.StepInv` | app/kafka_worker.py:46-92 | Every step of the worker, the producers and failures keeps the invariant. |
| `KafkaWorkers.KafkaWorker.Process` | app/kafka_worker.py:51-88 | One message: either it has the fields its topic asks for, its next offset is committed and polling goes on, or the worker is down. In the notifications group an analysis record is published with its ticket and analysis first; nothing else is published. |
| `KafkaWorkers.KafkaWorker.LogTicketCreated` | app/messaging/kafka.py:47-60 | Commits the next offset only of a record with version 1, a ticket and that ticket as key; publishes nothing. |
| `KafkaWorkers.KafkaWorker.LogAnalysisCompleted` | app/messaging/kafka.py:123-137 | Commits the next offset only of a record with version 1, a ticket, an analysis and that ticket as key; publishes nothing. |
| `EndToEnd.OneNotificationPerTicket` | README.md:149-157 | Sequential ticket workers composed with the notification worker: after dropping repeated analysis ids there is at most one notification per ticket, each names the committed analysis of its ticket, and every event below a committed offset is among them. |
| `EndToEnd.ProduceInv` | app/messaging/rabbitmq.py:275-302 | A ticket-worker step keeps the composition in order: what Kafka holds stays the encoding of what was sent. |
| `EndToEnd.MessagesAreTruthful` | app/kafka_worker.py:54-77 | Every message on the Redis channel names an analysis committed for its ticket. |
| `EndToEnd.DeduplicateKeeps` | README.md:222-224 | Dropping the analysis ids already seen keeps every event once and adds none. |
| `SuggestedAnswerSafety.AtMostOneEmail` | app/services/suggested_answer_delivery_service.py:42-104 | Over every interleaving of concurrent calls with crashes and failed or half-failed commits: at most one SMTP submission per draft, none before `pending_send`, `sent` only after a confirmed one, `send_failed` only after an unconfirmed one. |
| `SuggestedAnswerSafety.EmailIsTheReviewedText` | app/services/suggested_answer_delivery_service.py:48-64 | An email is submitted only while `pending_send` is committed (or the draft deleted), to the recorded recipient, with the text of the approval commit. |
| `SuggestedAnswerSafety.EmailAfterApproval` | app/services/suggested_answer_service.py:72-83 | Whatever happens after an approval, every email carries the text the row had then. |
| `SuggestedAnswerSafety.ReviewedTextIsFrozen` | app/services/suggested_answer_service.py:56-116 | Over every run the generated answer and its sources never change, the revision never changes once the draft is reviewed, and the status only moves forward. |
| `SuggestedAnswerSafety.RecordedForGood` | app/services/suggested_answer_service.py:85-102 | Over every run, what a review or a delivery has recorded never changes: the time of the review, the reason of a rejection, the recipient and the times of a send, and the reason of its failure. |
| `SuggestedAnswerSafety.StuckPendingStays` | README.md:198-200 | A pending row whose call is gone stays as it is (or is deleted) for ever, and no further email goes out: a send is not retried. |
| `SuggestedAnswerSafety.StuckPendingMayBeSent` | README.md:198-200 | Such a row may hide an accepted email, for any answer and customer: the call went away before it recorded the outcome. |
| `SuggestedAnswerSafety.StepInv` | app/services/suggested_answer_delivery_service.py:42-104 | Every transaction, submission, crash and deletion keeps the invariant. |
| `SuggestedAnswers.ChecksAreInductive` | app/models/ticket_suggested_answer.py:28-53 | From every row that satisfies the three CHECK constraints, each transaction commits a row that satisfies them, from its one status to its one status. Every column is accounted for: an edit stores the trimmed revision, a rejection the trimmed reason, a send the recipient, a failed send its reason, each its own time, and the rest stays. |
| `SuggestedAnswers.AppliesExactlyFrom` | app/services/suggested_answer_service.py:56-116 | A transaction goes through exactly for a draft of the given ticket in its one status with acceptable arguments. |
| `SuggestedAnswers.RefusedExactly` | app/services/suggested_answer_service.py:56-116 | Which refusal each transaction raises on which row: unusable arguments of a review first, then a missing draft, then a wrong status, then a missing customer. |
| `SuggestedAnswers.NewDraftChecks` | app/repositories/ticket_suggested_answer_repository.py:20-34 | A generated draft satisfies the constraints, holds the answer, and has one source per supplied chunk, in prompt order and numbered from 0. |
| `SuggestedAnswers.SendFailureReason` | app/services/suggested_answer_delivery_service.py:70-74 | The stored reason is the text of the delivery error, cut at 255 characters, or one of two fixed texts for an empty one and for any other error. |
| `SuggestedAnswerServices.SuggestedAnswerService.Generate` | app/services/suggested_answer_service.py:33-48 | Stores exactly the specified draft, sources numbered in prompt order, or stores nothing and says why; a lost reply may leave the draft behind an error. |
| `SuggestedAnswerServices.SuggestedAnswerService.Edit` | app/services/suggested_answer_service.py:56-70 | The method commits what the transaction specifies for the row it saw under the lock, or raises its error and changes nothing; the returned row holds the trimmed revision. |
| `SuggestedAnswerServices.SuggestedAnswerService.Approve` | app/services/suggested_answer_service.py:72-83 | Likewise for the approval; the returned row is approved with the time of the review. |
| `SuggestedAnswerServices.SuggestedAnswerService.Reject` | app/services/suggested_answer_service.py:85-102 | Likewise for the rejection; the returned row is rejected with exactly the trimmed reason, of 1 to 500 characters, and the time of the review. |
| `SuggestedAnswerServices.SuggestedAnswerDeliveryService.Send` | app/services/suggested_answer_delivery_service.py:42-77 | A normal return means one confirmed submission of the reviewed text, to the customer's address and with the ticket's title as subject, and a `sent` row; a delivery failure means one unconfirmed submission and a `send_failed` row with the reason of that failure; a missing draft, a draft that is not approved and a missing customer are each refused by name, exactly then, with nothing submitted; a missing pending row means the draft was deleted. |
| `SuggestedAnswerServices.SuggestedAnswerDeliveryService.RecordOutcome` | app/services/suggested_answer_delivery_service.py:79-104 | Records the time of the delivery or the reason of its failure on the pending row; the row can only be missing if the draft was deleted. |
| `ShutdownDrain.NobodyInsideAfterClose` | app/worker.py:44-90 | For every interleaving, when the connection closes and when the engine is disposed of no callback is inside the consumer, and none gets inside afterwards. |
| `ShutdownDrain.DrainTakesOneRound` | app/worker.py:77-88 | Once `stopping` is set the in-flight set only shrinks, and one round of gathering empties it. |
| `ShutdownDrain.DeferredIsNeverSettled` | app/worker.py:48-63 | A delivery that has not entered the consumer when `stopping` is set never enters it and is never settled, so it stays unacknowledged. |
| `ShutdownDrain.StepInv` | app/worker.py:41-90 | Every step of a callback, the broker or the main task keeps the invariant. |
| `ShutdownWorkers.Worker.RunWorker` | app/ticket_worker.py:37-82 | The main task ends, with nobody inside the consumer, after at most one round of the drain loop. |
| `ShutdownWorkers.Callback.ProcessMessage` | app/worker.py:48-63 | The callback defers exactly when `stopping` is set; a deferred delivery is not settled, any other one leaves the in-flight set, and whenever the consumer settles the connection is open. |
| `ShutdownWorkers.InsideIsOpen` | app/worker.py:76-90 | In every reachable state a callback inside the consumer still has its connection and is in the in-flight set. |
| `ShutdownWorkers.Worker.Gather` | app/worker.py:81-82 | When gathering returns, no callback of the snapshot is inside the consumer; that the callbacks end is part of how the event loop is modelled. |
| `UploadStreams.AcceptedExactly` | app/services/document_service.py:118-133 | A stream passes exactly when it is readable to its end, its first read starts with the PDF prefix and its size is within the limit; what is yielded is the whole stream. |
| `UploadStreams.VerdictExactly` | app/services/document_service.py:118-133 | The verdict on every stream, in this order: empty or broken before its first byte, not a PDF by its first read, too large, broken later on, or accepted with all its bytes. |
| `UploadStreams.CutsDoNotMatter` | app/services/document_service.py:118-133 | Two ways to cut the same stream into reads get the same verdict, with the same reason or the same bytes, provided neither first read is shorter than the prefix. |
| `UploadServices.DocumentService.Upload` | app/services/document_service.py:62-100 | Each complaint about the metadata is raised exactly when its condition is the first to fail: a type of 1 to 100 characters after trimming, a PDF file name, one of two content types. Past the commit, row and file are both there, the row with exactly the given values and the file with exactly the stream's bytes; before it there is no row, and no file if the cleanup worked; the row is left without its file exactly when the reply to the commit was lost and the cleanup worked. After success the job is published; after a failed publish it may or may not be in the queue; after any other error it is not. |
| `UploadStreams.ShortFirstReadIsRefused` | app/services/document_service.py:122-125 | With a shorter first read the verdict depends on the cut: a PDF is refused as not being one. |
| `UploadServices.ValidatedChunks.Next` | app/services/document_service.py:118-133 | One resumption of the generator yields the next part of what the stream amounts to. |
| `UploadServices.LocalDocumentStorage.Save` | app/storage/local.py:19-39 | A saved file holds exactly the bytes the generator yields; after a failure with working cleanup the directory is as before. |

## Left out

- JSON and UUID parsing: a message body is malformed or an id; a Kafka payload is its decoded fields.
- Transport clients, the parser, the embedding model and the language model: each call has an arbitrary outcome, including success with the reply lost where that can happen.
- Real time: a retry delay is a step in which the delivery stays unacknowledged; timestamps are arbitrary numbers.
- A database commit that is still on its way when its worker crashes: it takes effect before the crash or not at all.
- The order in which the broker delivers: any ready message may be next.
- Kafka rebalancing between several members of a group and stale commits of an earlier member: one member per group.
- KafkaWorkers.KafkaWorker.RunWorker: the number of polls before the stop event is seen is a parameter, so that the loop ends; a fetch without a record counts as one.
- Task cancellation inside a callback, and a second signal during the drain.
- ShutdownWorkers.Worker.Gather: that each callback ends is not proved of the consumer, it is how the event loop is modelled.
- Ticket and document deletion, except that a draft may disappear with its ticket at any time.
- pathlib: the last component and the lower-case suffix of a file name are given with it.
- UploadServices.DocumentService.Upload: the new id and the new path are taken to be unused, as random UUIDs; likewise a draft's id is generated at most once.
- SuggestedAnswerServices.SuggestedAnswerService.Generate: the prompt, the retrieval and the model's answer are an input.
- Routes, schemas, settings, wiring, logging, topology, `search_similar`, users, tickets, the agent and payment tools, and the WebSocket manager.
