# Meeting notes service: verified model

A Dafny model of the backend that turns Google Meet conferences into notes. It covers the
parts whose correctness does not show in any single function body:

- **Event ingestion** as a concurrent protocol. Pub/Sub pushes arrive repeatedly and out of
  order; several handlers interleave at their await points over shared tables, and the two
  unique columns are the only synchronisation (`Ingestion`, `IngestionSerial`,
  `IngestionOrder`, `IngestionTheorems`, `IngestionBoundary`, `IngestionRace`,
  `IngestionRealTime`, `IngestionContest`, `IngestionClash`, `IngestionTimeBoundary`,
  `IngestionCrash`, `IngestionEffects`, `EventService`, `EventParser`).
- **The resumable pipeline** with commits inside its stages, crashes between commits,
  exceptions, rollback and retry from the top (`Pipeline`, `PipelineStore`), beside
  regeneration requests that read and write at different moments (`Regeneration`).
- **Chunking and map-reduce summarisation**, pagination and transcript assembly (`Chunker`,
  `Summaries`, `MeetPages`, `Transcripts`, with strings in `Text`).
- **The access-token cache**: a lock per connection in a dictionary, double-checked
  freshness, disconnects, and the active / needs_reconnect status (`TokenCache`,
  `TokenSharing`, `TokenUse`, `TokenSerial`, `ConnectionStore`). The provider step is the refresh grant
  of section 6 of RFC 6749.
- **Remote subscriptions and their local mirror** (`Subscriptions`) and **ownership** of
  conferences and meetings under interleaved workers and cascading deletes (`Ownership`,
  `Provenance`).

## How to read it

Concurrent protocols are step machines: a state, a type of labels, `Next` for one step and
`Exec` for a list of labels. A label that cannot happen leaves the state alone, so *every*
list of labels is a run, and a theorem about all lists is a theorem about all runs. Code that
updates rows or loops is written as methods of classes (`EventService.Database`,
`PipelineStore.Store`, `ConnectionStore.ConnectionService`,
`Subscriptions.SubscriptionService`) or as loops (`Chunker.Chunk`, `MeetPages`,
`Transcripts.Assemble`); their contracts tie the new state to a function of the old one, and
the theorems are about that function.

Many theorems are stated through functions of the model (the target data of a run, the serial
answer of a request, the joined text of a transcript). What those functions give is spelt out
by laws of their own that do not mention them: `Pipeline.TargetIs`, `ConnectionStore.RefreshIffStale`,
`Summaries.CallsAndContent`, `Transcripts.LinesAre` and others in the table.

The network is a parameter: the Meet API, the summariser, the token endpoint and the events
API are functions or nondeterministic outcomes. Encryption is a pair of functions whose round
trip is the identity. Time is an integer that labels advance.

The design document promises that out-of-order events are harmless (line 276 of
`docs/superpowers/specs/2026-06-09-meet-gemini-notes-design.md`). For the code this holds
exactly under a condition on the events: `OrderIndependentIffOneStory` proves both directions.

Serialisability of concurrent handlers has an exact condition too. An event that names a
transcript for a record without a row can win both columns of that row against all others: its
own connection and its own transcript. No sequential order leaves such a row unless another
event about the record has the same connection or names the same transcript, or none names a
different one. `SerialisableIffNoLoneWinner` proves, for streams in which a message id stands
for one message, that every complete interleaving is replayed by a sequential order if and only
if this holds of all events of the stream. The simpler condition that events about one new
record agree on the connection is enough (`AgreementIsEnough`) but not needed
(`AgreementIsNotNeeded`).

When the order must also keep real time, so that a delivery answered before another arrived
comes before it, the exact condition is `SerialisableInTimeIff`. Three things stand against
it. A redelivered event may name a transcript for a record for which another event names
another: its redelivery can be dropped, and the other event can run, while it still waits to
write. A redelivered event about a new record may bring another connection than another event
does. And an event may be a lone winner among the events that *name* its new record, all of
which may have answered before any other arrives. If nothing of the kind is in the stream,
every complete interleaving has an order in real time; if anything is, some interleaving has
none. When the events agree on the connections only the first can happen
(`AgreedInTimeIffNoClash`), and for streams that may have it `ConcurrentIsSequential` says
which deliveries keep their time.

Handlers may die. If the events past the ledger agree on the connection of each new record, the
conferences are, at any moment, those of the sequential run of the handlers that had settled on
their row, and the ledger is that of all handlers past it (`CrashedRunsAreSequential`).

A `:regenerate` request may overlap a pipeline run. It then does no harm if and only if mapping
the conference to its meeting does not change the title of its notes (`RegenerationIsSafeIff`).

A refresh reply may carry a new refresh token (section 6 of RFC 6749). The code ignores it and
keeps the one from the last consent, and so does the model.

## Model

| member | source | states |
|---|---|---|
| EventParser.RecordIff | app/events/parser.py:32-36 | a record is extracted exactly from the name of a record or of a resource below it, and it is that record's name |
| EventParser.RecordOfPath | app/events/parser.py:32-36 | extraction is idempotent and gives the same key for everything below one record |
| EventParser.SameConferenceSameKey | app/events/parser.py:66-73 | a started event and a transcript event of one conference carry the same record key |
| EventParser.RefusedIff | app/events/parser.py:40-57 | which pushes are refused with which error: no message, no id under either spelling, no data, a payload that does not decode, a payload that is no object |
| EventParser.ParsedFields | app/events/parser.py:44-81 | a parsed push has a decodable object as payload; its id, type, subscription, transcript and record are the ones found there, with their defaults and the fallback to the record's own name |
| EventParser.ParsedKeys | app/events/parser.py:39-81 | every parsed event has a message id, canonical record and subscription names, and a record that agrees with its transcript name |
| EventParser.MarkerAfterHost | app/events/parser.py:22-29 | in the provider's sources the first subscriptions marker is the one after the host |
| EventParser.SubscriptionRoundTrip | app/events/parser.py:22-29 | the name a subscription was created under is the name its events resolve to |
| EventParser.PushRoundTrip | app/events/parser.py:39-81 | parsing the push that carries an event gives that event back, under either spelling of the message id |
| Ingestion.EveryRunKeeps | app/services/event_service.py:22-106 | foreign keys, unique ids, handler facts and the queue stay consistent over every interleaving with redeliveries, crashes and disconnects |
| Ingestion.AtMostOncePerMessage | app/services/event_service.py:33-45 | one message gets past the ledger at most once and is enqueued at most once |
| Ingestion.EnqueuedNamesTheConference | app/services/event_service.py:87-106 | an enqueued id names the one conference of the event's record, and if the event named a transcript the row has one, on the insert, update and conflict paths alike |
| Ingestion.TranscriptNeverUnset | app/services/event_service.py:79-102 | a living row's transcript name never goes from set to unset |
| Ingestion.RunGrows | app/services/event_service.py:66-102 | along every run rows keep their identity, ids are never reused and the ledger only grows |
| Ingestion.EnqueuedRowLives | app/services/event_service.py:104-106 | without a disconnect the row a handler works on or has enqueued is there |
| IngestionEffects.QueueIsTheAnswers | app/services/event_service.py:104-106 | over every run the queue holds exactly one job for each handler that answered enqueued, with the id it answered |
| IngestionEffects.VanishedIsNotEnqueued | app/services/event_service.py:104-105 | a handler whose row has vanished before its refresh can only fail, and no job of it is ever queued |
| IngestionEffects.DeadEnqueuesNothing | app/services/event_service.py:104-106 | a handler that dies never enqueues |
| IngestionEffects.RowsLiveWithConnections | app/models/conference.py:23-28 | a conference keeps its row and connection through every run in which that connection is not disconnected |
| IngestionEffects.DisconnectTakesItsOwn | app/models/conference.py:23-28 | a disconnect takes exactly the conferences and subscriptions of its connection |
| IngestionEffects.RoutesIff | app/services/event_service.py:52-60 | routes and connections change only by the rest of the application, never by a handler |
| IngestionSerial.SerialForm | app/services/event_service.py:66-83 | handling new messages one by one leaves per record the connection of the first mention and the transcript of the last name |
| IngestionSerial.OrderIndependentIffOneStory | app/services/event_service.py:66-83 | the order of new messages does not matter if and only if no record gets two transcript names or, as a new row, two connections |
| IngestionSerial.RedeliveriesVanish | app/services/event_service.py:25-27 | a stream leaves exactly what its first deliveries leave |
| IngestionSerial.DeliveryDoesNotMatter | app/services/event_service.py:22-106 | two streams of the same one-story events, in any order and with any repetitions, leave the same conferences and ledger |
| IngestionOrder.QuietRunKeeps | app/services/event_service.py:66-106 | along every interleaving of deliveries and steps each row has the connection of a handler that settled on it, and the transcript of the one that named one last, by the time of its deciding step |
| IngestionTheorems.StampOrderIsSequential | app/services/event_service.py:33-106 | when the events past the ledger agree on the connection of each new record, every complete interleaving leaves the conferences and ledger, and gives the answers, of the same deliveries one after another by their deciding steps; of two past the ledger, or two duplicates, the one answered before the other arrived comes first |
| IngestionTheorems.StampsRespectRealTime | app/services/event_service.py:33-106 | of two handlers past the ledger the one that had answered before the other was delivered decides first |
| IngestionTheorems.EveryScheduleAgrees | app/services/event_service.py:22-106 | for one-story events every complete interleaving leaves what any sequential pass leaves |
| IngestionBoundary.NoLoneWinnerSuffices | app/services/event_service.py:33-106 | when no event can be a lone winner, every complete interleaving, whatever is redelivered, is replayed by an order: conferences, ledger and answers |
| IngestionRace.RaceRun | app/services/event_service.py:66-102 | any event that names a transcript for a new record can win both columns of the row, whatever else is delivered, even when all who name the record have answered before any other event arrives |
| IngestionRace.LoneWinnerBreaks | app/services/event_service.py:84-102 | an event that shares neither its connection nor its name while another name is given has a schedule whose conferences no order of the same deliveries leaves |
| IngestionRace.SerialisableIffNoLoneWinner | app/services/event_service.py:66-102 | every complete interleaving of a stream is replayed by some order of its deliveries if and only if no event can be a lone winner |
| IngestionRace.AgreementIsEnough | app/services/event_service.py:71-77 | events that agree on the connection of each new record have no lone winner |
| IngestionRace.AgreementIsNotNeeded | app/services/event_service.py:79-102 | two connections race harmlessly for one record when one of the events names no transcript |
| IngestionRace.TwoConnectionsAreNotSequential | app/services/event_service.py:84-102 | two events of different connections with different names for one new record have a schedule that neither order of them explains |
| IngestionRealTime.ConcurrentIsSequential | app/services/event_service.py:25-106 | under the same agreement some order replays the run and puts every delivery before those that arrived after its answer, unless it is a duplicate of an event whose name for its record clashes with another's |
| IngestionRealTime.AgreedEventsAreSequential | app/services/event_service.py:25-106 | the same with the condition on the events before they are delivered |
| IngestionContest.ResolvedIsSequential | app/services/event_service.py:66-102 | a run is replayed in real time when each contested new record has somebody who can act first and somebody who can act last at the insert, and neither a contested event nor a clashing name is redelivered |
| IngestionClash.NoClashesSuffice | app/services/event_service.py:25-106 | when no redelivered event clashes in name or connection and no event can be alone among those who name a new record, every complete interleaving is replayed by an order in real time |
| IngestionClash.ClashBreaks | app/services/event_service.py:25-83 | a redelivered event whose name clashes with another's has a schedule that no order replays in real time: its redelivery is dropped and the other event runs before it writes |
| IngestionTimeBoundary.ConnectionClashBreaks | app/services/event_service.py:25-77 | so has a redelivered event about a new record whose connection clashes with another's: the other one inserts the row |
| IngestionTimeBoundary.LoneNamerBreaks | app/services/event_service.py:66-102 | so has an event that shares neither its connection nor its name with another that names the record, while another name is given |
| IngestionTimeBoundary.SerialisableInTimeIff | app/services/event_service.py:22-106 | every complete interleaving of a stream is replayed by an order of its deliveries that keeps real time if and only if none of these three is in the stream |
| IngestionTimeBoundary.AgreedInTimeIffNoClash | app/services/event_service.py:22-106 | for events that agree on the connection of each new record this holds if and only if no redelivered event clashes in its name |
| IngestionTimeBoundary.LateDuplicate | app/services/event_service.py:25-45 | an instance: one name delivered twice and another once have a schedule that some order replays, but none in real time |
| IngestionCrash.RunBehind | app/services/event_service.py:22-106 | leaving out deaths, and what the dead no longer do, gives a run without deaths that leaves the same tables and lets the same handlers settle in the same order |
| IngestionCrash.CrashedRunsAreSequential | app/services/event_service.py:37-106 | under the same agreement as ConcurrentIsSequential, at any moment of a run in which handlers may die, the conferences are those of the sequential run, in real time, of the handlers that have settled on their row, each of which that run enqueues, and the ledger is that of all handlers past it |
| EventService.Database.HandleEvent | app/services/event_service.py:22-106 | the handler with sessions and commits takes exactly the protocol's steps under any interference, and enqueues only what it answers |
| EventService.Database.Conclude | app/services/event_service.py:66-83 | lookup, insert or update, and what follows, step for step under interference |
| EventService.Database.Reload | app/services/event_service.py:84-106 | the conflict path reloads the winner's row and repairs a missing transcript name only |
| EventService.Database.Enqueue | app/services/event_service.py:104-106 | the last refresh fails when the row is gone; otherwise the id is enqueued once |
| EventService.Database.UpdateTranscript | app/services/event_service.py:79-83 | an update changes only the row with that id and matches nothing when it is gone |
| EventService.UndisturbedIsHandle | app/services/event_service.py:22-106 | undisturbed, the protocol's handler is the sequential reference |
| Pipeline.MeetingIs | app/services/transcript_service.py:28-43 | a mapped conference keeps its meeting; an unmapped one gets the first meeting with the conference's non-empty space and its owner's user, and none exactly when no meeting has both |
| Pipeline.TitleIs | app/services/notes_service.py:41-46 | the title is that of the meeting, or the default when there is no such meeting or its title is empty |
| Pipeline.NotesAre | app/services/notes_service.py:85-104 | notes carry that title, the model, and the answer to the summariser's last call, or the fixed summary when the text has no words |
| Pipeline.TargetIs | app/services/transcript_service.py:57-96 | the target spelt out: one line per entry joined by newlines, the meeting as above, and the notes of that text |
| Pipeline.RegenerateRewrites | app/api/routes/notes.py:114-138 | a regeneration at one moment replaces the notes by those of the stored transcript and touches nothing else |
| Pipeline.NoTextNoContent | app/services/notes_service.py:85-90 | a transcript without a text gets the fixed summary |
| Pipeline.DeletedStaysDeleted | app/services/pipeline.py:48-51 | deleted rows never return, whatever run is under way |
| Pipeline.Truncate | app/services/pipeline.py:86 | the recorded message is the first 2000 characters |
| Pipeline.HistoryProgress | app/services/pipeline.py:57-79 | along every history, with regenerations at one moment, the rows a state or a place in the run promises hold the target data |
| Pipeline.RetryIsSafe | app/services/pipeline.py:57-89 | a history of failures, crashes, retries and regenerations at one moment that reaches notes_generated leaves the transcript, notes, meeting and error of one uninterrupted run |
| Pipeline.RetrySuffices | app/services/pipeline.py:17-24 | after any such history one more uninterrupted run ends in the target data |
| Pipeline.StateImpliesRows | app/services/pipeline.py:61-78 | transcript_fetched implies a transcript row, notes_generated implies both, over all histories |
| Pipeline.FailureAccounting | app/services/pipeline.py:79-89 | attempts counts the recorded failures, last_error is null exactly outside failed, and stage one runs at most once more than there were failures and crashes |
| Pipeline.GeneratedIsAbsorbing | app/services/pipeline.py:53-55 | over serial runs whose commits are acknowledged a conference in notes_generated is never changed again except by deletion |
| Pipeline.GeneratedIsFinalIff | app/services/pipeline.py:76-87 | over all serial histories, lost acknowledgements included, a generated conference is final if and only if its run is over |
| Pipeline.LostAcknowledgement | app/services/pipeline.py:76-87 | a final commit that takes effect and then raises leaves a generated conference that the failure path overwrites |
| Regeneration.UndisturbedRequest | app/api/routes/notes.py:114-138 | a request that nobody disturbs replaces the notes by those of its conference and transcript and changes nothing else |
| Regeneration.DisturbedWrite | app/services/notes_service.py:92-106 | over a row that changed since it looked a request writes exactly the columns that differ from what it saw; an insert never overwrites and a row that is gone never returns |
| Regeneration.NotesHaveConference | app/models/notes.py:16-20 | whatever request is under way, notes and transcript never outlive their conference |
| Regeneration.HistoryIsSane | app/api/routes/notes.py:114-138 | requests that load, read, look and write at different moments disturb neither the transcript nor the mapping nor the stages, and what they write is the target notes under the title from before or after the mapping |
| Regeneration.AgreedTitlesAreSafe | app/services/notes_service.py:79-107 | if mapping does not change the title, every history that reaches notes_generated, with any requests under way, has the target data |
| Regeneration.StaleTitle | app/services/notes_service.py:41-46 | a request that loads the conference before a run and writes after it leaves a generated conference under the title from before the mapping |
| Regeneration.RegenerationIsSafeIff | app/api/routes/notes.py:114-138 | for a new conference without a transcript all histories that end generated, with no request under way, have the target data if and only if mapping does not change the title or the conference cannot be fetched |
| Regeneration.RetryRepairs | app/services/pipeline.py:17-24 | whatever requests have written, and whatever the titles, one more uninterrupted run of a conference not yet generated ends in the target data |
| PipelineStore.Store.FetchTranscript | app/services/transcript_service.py:57-96 | mapping and transcript row are committed together or not at all, with the error cases; an unmapped conference gets the owner's first meeting in its space, and none exactly when there is none |
| PipelineStore.Store.GenerateNotes | app/services/notes_service.py:70-107 | the notes row is replaced by the notes of the stored transcript, or nothing changes |
| PipelineStore.Store.FetchStage | app/services/pipeline.py:61-69 | the first guarded block takes the machine's steps; it ends in transcript_fetched, or in the state it began with unless an acknowledgement is lost |
| PipelineStore.Store.GenerateStage | app/services/pipeline.py:71-78 | the second guarded block takes the machine's steps; it ends in notes_generated, or as it began unless an acknowledgement is lost |
| PipelineStore.Store.RecordFailure | app/services/pipeline.py:79-87 | a failure counts one attempt and keeps the first 2000 characters of the message, if the row is still there |
| PipelineStore.Store.RunPipeline | app/services/pipeline.py:37-89 | a run is one run of the machine in every weather; it returns normally only when the conference is gone or its notes are generated, and then always if all commits are acknowledged |
| PipelineStore.DriveIsExec | app/services/pipeline.py:37-89 | a run is a finite list of machine steps that ends idle |
| PipelineStore.RunsAreSafe | app/services/pipeline.py:57-89 | any sequence of runs in any weather is a history, so reaching notes_generated means the target data |
| Chunker.Chunk | app/services/notes_service.py:22-38 | the loop with its running counter computes the greedy packing of the split lines |
| Chunker.SliceAt | app/services/notes_service.py:16-19 | slice k of a long line is its characters from k times the budget on |
| Chunker.GreedyIsTight | app/services/notes_service.py:27-37 | the packing cuts the pieces into non-empty consecutive groups that fit, none of which could take the next piece |
| Chunker.TightIsGreedy | app/services/notes_service.py:27-37 | that property determines the packing |
| Chunker.GreedyIsOptimal | app/services/notes_service.py:27-37 | no fitting cut of the pieces has fewer groups |
| Chunker.ChunkBound | app/services/notes_service.py:22-38 | every chunk is within the budget and the fallback to the whole text is never taken |
| Chunker.ChunksLossless | app/services/notes_service.py:22-38 | the chunks rejoin to the pieces, equal the text up to newlines, and rejoin to the text exactly when no line exceeds the budget |
| Chunker.ChunksFewest | app/services/notes_service.py:22-38 | the chunks are the fewest possible |
| Chunker.NeighboursExceed | app/services/notes_service.py:30-35 | two adjacent chunks and their newline exceed the budget |
| Chunker.ChunkCountBound | app/services/notes_service.py:22-38 | with n chunks, floor(n/2) times the budget plus n - 1 is at most the text length plus the extra splits |
| Summaries.Budget | app/services/notes_service.py:58 | the budget is four characters to a token, but at least 1000, for every integer threshold |
| Summaries.Summarize | app/services/notes_service.py:49-67 | short texts take one call; long ones one call per chunk in order and one call on the rendered sections |
| Summaries.RenderItems | app/services/notes_service.py:64 | every action item is rendered, with its owner in front when there is one |
| Summaries.DecimalValue | app/services/notes_service.py:62 | a section number is written as the decimal numeral of its value |
| Summaries.CombineIs | app/services/notes_service.py:61-66 | the reduce prompt is, for every number of parts, their written-out sections in order with an empty line between, and nothing else: number, summary, all decisions, all action items |
| Summaries.CallsAndContent | app/services/notes_service.py:49-67 | the content is the answer to the last call; within the threshold that is the only call and carries the text itself, beyond it the reduce prompt |
| Summaries.MapReduceCalls | app/services/notes_service.py:54-67 | n map calls within the budget, n bounded by the text, the whole text sent in order up to newlines, and one reduce call with the sections of all n, whose answer is the content |
| MeetPages.ListTranscriptEntries | app/google/meet_client.py:113-138 | for any finite chain of pages the loop returns the entries of all pages in order, or the HTTP error |
| MeetPages.ListParticipants | app/google/meet_client.py:140-169 | likewise for participants, with the first filled user field as display name |
| MeetPages.ListingLength | app/google/meet_client.py:113-138 | the listing holds as many items as all pages together |
| MeetPages.EntryAt | app/google/meet_client.py:128-135 | each entry keeps its participant, text and language; a missing text is empty |
| MeetPages.ParticipantAt | app/google/meet_client.py:155-166 | each participant keeps its name and is called by its signed-in, else anonymous, else phone user |
| MeetPages.ListingAt | app/google/meet_client.py:113-138 | item k of page i stands after all items of the earlier pages |
| Transcripts.Assemble | app/services/transcript_service.py:46-54 | one rendered line per entry in order, and the language of the first entry that has one |
| Transcripts.Language | app/services/transcript_service.py:50-51 | no language exactly when no entry has one; otherwise that of the first entry with one |
| Transcripts.LastListedSpeaker | app/services/transcript_service.py:52-80 | an entry is attributed to the last listed participant of its name |
| Transcripts.UnlistedSpeaker | app/services/transcript_service.py:52-80 | an entry of an unlisted participant is attributed to Unknown |
| Transcripts.LinesAre | app/services/transcript_service.py:46-54 | line k is the last listed display name of entry k's participant, or Unknown when it is missing, empty or unlisted, then a colon, a space and the entry's text; the transcript is these lines joined by newlines |
| Transcripts.ContentPreserved | app/services/transcript_service.py:82-85 | what reaches the summariser is the written-out line of every entry of every page, in order, up to newlines |
| Text.JoinSpells | app/services/notes_service.py:61-66 | a join is the parts in order with the separator between any two, and nothing else |
| Text.BlankIff | app/services/notes_service.py:88 | a text is blank exactly when it has no words |
| Text.ErasesOnly | app/services/notes_service.py:27-37 | the comparison up to newlines ignores newlines and nothing else |
| TokenCache.SingleFlightAlways | app/services/connection_service.py:80-128 | under any interleaving of callers, replies, aborts, reconnects and disconnects at most one task per connection is inside a refresh |
| TokenCache.StaleLockVanishes | app/services/connection_service.py:89-128 | a task that holds a lock other than the dictionary's, or a new lock beside an old one, finds its row deleted at the reload and never contacts the provider |
| TokenSharing.OneRefreshServesAll | app/services/connection_service.py:86-116 | whatever happens to other connections, callers of an active, stale connection make at most one refresh call, and all that finish return that one token, except those cut off outside the call |
| TokenUse.ReturnedTokenWasUsable | app/services/connection_service.py:74-116 | under every interleaving a task that returns a token asked the provider itself, or the row held that token with more than 60 seconds left at some moment of the run |
| TokenUse.EveryCallWasNeeded | app/services/connection_service.py:89-96 | every refresh was started while the row held no token with more than 60 seconds left |
| TokenUse.RefreshTokenSurvives | app/services/connection_service.py:62-116 | no refresh or rejection under way replaces a refresh token; only a consent does |
| TokenUse.FlushKeepsTheRest | app/services/connection_service.py:99-114 | a commit after a refresh sends the columns that differ from the task's copy and leaves what a consent stored meanwhile in the others |
| TokenUse.OnlyDisconnectsPop | app/services/connection_service.py:128 | a lock leaves the dictionary exactly at the last step of a disconnect of its connection |
| TokenUse.DeletedIsGone | app/services/connection_service.py:119-128 | a finished disconnect has removed the row for good |
| TokenSerial.AloneIsSerial | app/services/connection_service.py:80-116 | a request that runs alone through the interleaved machine answers and stores what the serial service does |
| ConnectionStore.ConnectionService.LockFor | app/services/connection_service.py:28-33 | an id keeps its lock, and a missing one gets a new lock object |
| ConnectionStore.ConnectionService.UpsertConnection | app/services/connection_service.py:46-71 | consent stores the new columns, keeps the refresh token when none is given and fails on a new row without one |
| ConnectionStore.ConnectionService.GetValidAccessToken | app/services/connection_service.py:80-116 | answer and new row for each status, freshness and provider reply |
| ConnectionStore.ConnectionService.DeleteConnection | app/services/connection_service.py:119-128 | the row and the lock go, whatever the revocation does |
| ConnectionStore.RefreshIffStale | app/services/connection_service.py:74-96 | an active connection contacts the provider exactly when neither at the start nor under the lock its token has more than 60 seconds left; otherwise that token is the answer and nothing is sent |
| ConnectionStore.UnsentTokenWasUsable | app/services/connection_service.py:74-92 | a token returned without a message was stored with more than 60 seconds left at one of the two moments |
| ConnectionStore.StoredGrant | app/services/connection_service.py:60-113 | over every history a row holds the access token, its expiry and the scopes of the last consent or granted refresh, and the address of the last consent |
| ConnectionStore.StoredAccount | app/services/connection_service.py:60-61 | the account id is that of the last stored consent with one |
| ConnectionStore.ScopesSplit | app/services/connection_service.py:66 | a scope string in the form of section 3.3 of RFC 6749 is stored as exactly its list of scopes |
| ConnectionStore.DisconnectRevokes | app/services/connection_service.py:119-128 | a disconnect sends one revocation, of the last refresh token given, and removes row and lock |
| ConnectionStore.StoredRefreshToken | app/services/connection_service.py:62-63 | over every history a row exists exactly when a token was given since the last disconnect, and it holds the last non-empty one |
| ConnectionStore.SentTokenIsCurrent | app/services/connection_service.py:94-96 | every refresh and revocation ever sent carries the token that was current |
| ConnectionStore.NeedsReconnectIff | app/services/connection_service.py:67-100 | a connection needs a reconnect exactly when a refresh was answered with a status from 400 to 499 since the last consent |
| ConnectionStore.RejectionIsFinal | app/services/connection_service.py:83-102 | after a rejection every request fails as permanent and the provider is not asked until the next consent |
| ConnectionStore.OnlyVerdictsChangeRows | app/services/connection_service.py:95-113 | a transient failure changes no stored column |
| ConnectionStore.TokenIsUsable | app/services/connection_service.py:74-116 | a returned token is the stored one and is fresh by the clock or was just granted |
| ConnectionStore.LocksAreBounded | app/services/connection_service.py:28-33 | over every serial history no lock outlives its connection and there are no more locks than rows |
| Subscriptions.SubscriptionService.CreateForConnection | app/services/subscription_service.py:44-95 | skips, failures, the best-effort delete and the stored row, for every outcome of the remote calls |
| Subscriptions.SubscriptionService.DeleteForConnection | app/services/subscription_service.py:98-120 | the local row goes whatever the remote delete does |
| Subscriptions.SubscriptionService.GetBySubscriptionName | app/services/subscription_service.py:34-41 | a connection is found exactly when a row has the name |
| Subscriptions.LocalRowIs | app/services/subscription_service.py:87-120 | over every history a connection has a row exactly when its last committed operation was a create, and the row has the name, expiry and state of that create |
| Subscriptions.LiveIff | app/services/subscription_service.py:64-85 | a remote subscription starts with a create that is not refused and ends only by expiry or an effective delete of its own connection |
| Subscriptions.RunSound | app/services/subscription_service.py:87-95 | local rows have distinct names over every history |
| Subscriptions.RoutingIsUnambiguous | app/services/subscription_service.py:34-41 | an event's subscription names at most one connection |
| Subscriptions.OrphansAreLapses | app/services/subscription_service.py:64-95 | a live remote subscription without a local row is one whose delete failed or whose create was never recorded |
| Subscriptions.OrphanBound | app/services/subscription_service.py:64-120 | there are at most as many orphans as failed deletes and unrecorded creates |
| Subscriptions.SmoothRunsLeaveNoOrphans | app/services/subscription_service.py:64-120 | when all remote calls succeed every live subscription is named by exactly one local row |
| Subscriptions.BoundIsTight | app/services/subscription_service.py:67-78 | the bound is reached for every number of failures |
| Ownership.NewMeeting | app/services/meeting_service.py:46-86 | a stored meeting is its user's and has the space of the reply exactly when notes are enabled, which needs a request, a meeting code and no HTTP error |
| Ownership.RunKeeps | app/services/transcript_service.py:28-43 | in every reachable database a mapped conference has its meeting's user, notes enabled and its own space |
| Ownership.ChecksAgree | app/api/routes/notes.py:19-37 | for a mapped conference the conference check and the meeting check pass for the same users |
| Ownership.ListingIsOwned | app/api/routes/notes.py:77-90 | the list is refused to everybody but the meeting's user and holds exactly the conferences mapped to it, all of which pass the conference check |
| Provenance.OneOwner | app/api/routes/notes.py:19-28 | in every reachable database a conference, mapped or not, passes the check of exactly one user, the one whose consent issued the connection that its event came over; a missing one passes nobody's |
| Provenance.KeysStayUnique | app/services/event_service.py:66-83 | a user has at most one connection and a record at most one conference |
| Provenance.LossIff | app/models/conference.py:17-28 | a connection goes exactly by its disconnect, a meeting exactly by its own user's delete, a conference with its transcript and notes exactly with one of the two |
| Provenance.CreationStores | app/services/meeting_service.py:46-86 | a creation adds one meeting under a new id, with the space of the reply when notes could be enabled, and nothing else |
| Provenance.FetchMaps | app/services/transcript_service.py:57-96 | an undisturbed fetch stores the transcript and maps the conference exactly when it had no meeting and the found one is its owner's in its space |
| Ownership.ArtifactsHaveOwners | app/models/conference.py:17-28 | under cascading deletes notes and transcripts exist only for conferences whose connection, and meeting if mapped, still exist |

## Left out

- Two pipeline workers on one conference at a time: a late failure can overwrite `notes_generated` with `failed`, so the pipeline theorems are about serial runs.
- Ingestion of a new transcript name, or a change to the meetings table, in the middle of a pipeline history: the histories keep both fixed.
- TokenCache.SingleFlightAlways: says nothing about the status under concurrency, because a waiter does not check it again after taking the lock; the status theorems are serial.
- TokenSharing.OneRefreshServesAll: needs every granted lifetime to exceed the 60-second skew for the rest of the run; a shorter one may be refreshed again. A caller cut off at the provider or while storing is not covered either: the next one then asks again.
- Fairness of `asyncio.Lock`: any waiter may take a free lock.
- IngestionTheorems.StampOrderIsSequential: does not keep a duplicate before a later delivery that passes the ledger; `IngestionRealTime.ConcurrentIsSequential` does, in another order, wherever the names do not clash.
- IngestionCrash.CrashedRunsAreSequential: a handler that died before its row leaves its message in the ledger and nothing else, so it has no place in the sequential run.
- Eventual processing: the ledger is written first, so a message whose handler dies is not handled again; job retry and result retention of the queue are not in the repository.
- Chunker.Chunk: requires a positive budget, which every caller passes (`max(1000, ...)`); a zero or negative one raises or loops over no slices.
- A bound on the reduce prompt: the combined sections are not chunked again and there is none.
- "Notes row exists" implies `notes_generated`: regeneration writes notes without touching the state, so only the other direction is proved.
- Between a run's own lookup of the notes row and its commit no request commits: `Regeneration` splits the request, while the commit of a run stays one step.
- EventParser.PushRoundTrip: base64 and JSON decoding are one abstract function; non-integer JSON numbers are not represented.
- Column lengths (`String(256)` and others), database errors other than key violations and commits that raise, and stale session caches beyond the copies the machines carry.
- Which meeting `_map_meeting` picks when several match: the pipeline takes the first in table order, the ownership model any.
- Fernet, OAuth user information, JWT, bcrypt, Gemini reply classification, calendar calls, request schemas, migrations, HTTP and FastAPI wiring.
- User creation and user deletion; `updated_at` and other timestamps that nothing reads.
