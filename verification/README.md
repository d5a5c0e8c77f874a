# Deliberum daemon kernels, verified

Deliberum is a local deliberation room: a daemon keeps runs, events, grants and settings on disk, and a
command line and a web client talk to it. This project models the stateful kernels of that daemon, and the
event-stream reader of the command line, and proves what they promise over all inputs and over whole runs.

Where the program updates something in place, the model is a class or a loop proved equal to a specification
function; the laws are then proved about those functions. Where the program computes a value, the model is a
function. The modules named `...Answers` tell what each operation does by the fields of its request and of the
state, independently of the functions that specify it. Clocks, token draws, SHA-256, `JSON.parse` and the text
checks for secrets are parameters.

| module | kernel | main results |
|---|---|---|
| `EmbeddedJson`, `JsonText` | the scanner that pulls one JSON object out of prose (grammar and strings of RFC 8259) | on prose with printed JSON values in it, exactly the top-level objects are collected; on any text, what is returned closes at its own end and extraction is idempotent |
| `SseFraming`, `SseAnswers` | the incremental server-sent-event framer (sections 9.2.5 and 9.2.6 of the WHATWG HTML Standard) | any chunking of a stream delivers what the whole stream would; written streams are read back |
| `ProcessLock` | the SQLite lease lock | mutual exclusion over all runs of any number of processes; a diligent holder never loses the lease |
| `AuditOrder`, `AuditLog` | the operation audit log in memory, in a JSON file and in SQLite | all three hold the greatest entries of the whole history and list the same |
| `AuditExport` | the rotating JSONL mirror | the files are a suffix of everything written, within byte and file bounds |
| `Base64Url`, `WebGet`, `WebGetAnswers` | chunked submission over GET (section 5 of RFC 4648, canonical as in section 3.5) | pieces in any order with any repeats are never refused and are reassembled exactly |
| `EnvFile`, `EnvValues`, `ManagedFile`, `SetupEnv`, `MarkersInValues`, `StartUp`, `LaterSteps`, `SetupAnswers` | the two managed blocks of the local env file | over all runs of saves and clears each block is read back and the user's lines survive; when a restart loads exactly the live environment; which values with marker text in them start-up can and cannot live with, and what the next step does after such values |
| `Grants`, `SqliteGrants`, `GrantsAnswers` | resource access grants, in memory and as SQLite transactions | both stores answer alike for ever; no access after expiry or revocation |
| `EventBus`, `RunPublishing`, `RunAnswers`, `StageInterleaving` | event bus and publish-what-is-new | the bus is a plain list of listeners exactly as long as no call of a handle displaces another subscription; every appended event is published once for each stage execution that was open |
| `Text`, `Checks` | strings, search, trimming, lines; lists of checks tried in order | used by all |

## What is not true of the code, and when it is

- Not every accepted value survives a restart. A value with the text of its block's own END marker makes
  start-up reject the whole file, and so do most values with a marker of the other block, because start-up
  looks for both blocks; a value that encloses an assignment in both markers of the other block is accepted and
  makes start-up set that variable. A value with its own block's BEGIN marker does no harm.
  `StartUp.SavedRequestSurvivesIff` gives, for any request that passes validation and any file a run can reach,
  the exact condition for start-up to accept the file and the exact condition for it to load what was saved and
  the other block as it was; `StartUp.NextSaveIsReadIff` is the same for whole runs. Inputs that fail:
  `StartUp.OwnEndIsRejected`, `StartUp.OtherBeginIsRejected` and `StartUp.ModelTextSetsAVariable`;
  `StartUp.MarkerIsAccepted` and `StartUp.EnclosingIsAccepted` show that they pass the normalizer.
- A save does not always undo an earlier one of the same block, and a step of the other block can fail, after
  such values: `LaterSteps.SecondSaveRepairsIff` and `LaterSteps.OtherStepSucceedsIff` say exactly when.
- A restart and the live daemon can differ when managed variables are preset in the environment:
  `SetupEnv.RestartMatchesLiveIff` says exactly when.
- Removing a block that was just added gives back only the empty file; other files get one or two line breaks
  more, blank ones become empty: `EnvFile.RemoveUndoesMergeIff`.
- A second call of an unsubscribe handle, or the first call of a second handle of the same listener, can drop
  another subscriber: `EventBus.SecondCallDropsAnother`, `EventBus.DoubleSubscriptionDropsAnother`, and the
  exact condition over any run in `EventBus.BusIsPlainIff`.
- The in-memory audit log accepts a repeated id and can then outgrow its bound:
  `AuditLog.RepeatedIdsExceedTheBound`, and the exact condition over a whole history in
  `AuditLog.LogStaysWithinIff`.
- The two grant stores can differ when an id is used twice: `SqliteGrants.StepsMatch` says exactly when for one
  operation, `SqliteGrants.AnswersAgreeIff` for a whole run, and `SqliteGrants.SecondUseOfAnIdDiffers` comes to
  such a point from the empty stores.
- Several processes may believe they hold the lock at once; only the lease is exclusive.
  `ProcessLock.FlagsFromTheStartIff` says for which runs the flags are exclusive too, and
  `ProcessLock.AcquiredFlagsAreNotExclusive` is a run for which they are not.

## Model

| member | source | states |
|---|---|---|
| EmbeddedJson.ExtractSingleEmbeddedJsonObjectSource | apps/daemon/src/openai-compatible-structured-generator.ts:240-306 | The loop with its index, start offset and slices returns what the character automaton collects, for any text. |
| EmbeddedJson.CollectsTopLevelObjects | apps/daemon/src/openai-compatible-structured-generator.ts:248-305 | On text whose strings, brackets and braces nest, the collected sources are exactly the objects outside every array and object, in order, with their exact text; there is a result exactly when there is one. |
| EmbeddedJson.FindsPrintedObjects | apps/daemon/src/openai-compatible-structured-generator.ts:240-306 | For plain prose interleaved with printed JSON values of any kind and nesting, the sources are the printed top-level objects in order, and the result is that object exactly when there is one. |
| EmbeddedJson.StrayCloserIsNothing | apps/daemon/src/openai-compatible-structured-generator.ts:240-306 | A closing bracket or brace with nothing to close changes nothing of what is collected around it. |
| EmbeddedJson.UnclosedHidesTheRest | apps/daemon/src/openai-compatible-structured-generator.ts:240-306 | Behind an opening bracket or brace that nothing closes no object is collected. |
| EmbeddedJson.UnclosedQuoteHidesTheRest | apps/daemon/src/openai-compatible-structured-generator.ts:240-306 | Nor behind a quote that nothing closes. |
| EmbeddedJson.ExtractionIsIdempotent | apps/daemon/src/openai-compatible-structured-generator.ts:240-306 | For arbitrary text a returned source is a contiguous part of it, its brace depth outside strings stays positive up to its last character, and scanning it again returns it unchanged. |
| JsonText.UnquoteOfQuote | apps/daemon/src/setup-env.ts:880-912 | A printed JSON string literal is read back as the original text, whatever its characters. |
| SseFraming.BoundaryIsEarliest | apps/cli/src/cli.ts:2698-2724 | The boundary is the first place where LF LF or CRLF CRLF stands, with that blank line's length, and there is none exactly when neither stands anywhere. |
| SseFraming.BoundaryIsStable | apps/cli/src/cli.ts:2698-2724 | A boundary found in a prefix stays the boundary after more text arrives. |
| SseFraming.FramesOfConcat | apps/cli/src/cli.ts:2648-2658 | The frames of a longer text are those of the first part followed by those of its remainder with the rest. |
| SseFraming.ParseSseFrame | apps/cli/src/cli.ts:2726-2761 | The loop over lines gives the last event name and the data lines joined by line feeds, or nothing when there is neither. |
| SseFraming.ConsumeSseFrame | apps/cli/src/cli.ts:2672-2696 | A frame delivers its event exactly when it is named event and has data that can be read; unreadable data is the only failure. |
| SseFraming.ConsumeSseFrames | apps/cli/src/cli.ts:2640-2670 | The framing loop terminates, delivers the events of the complete frames in order up to the first failure, on a flush also the non-blank tail, and returns what is left over. |
| SseFraming.StreamRunEvents | apps/cli/src/cli.ts:2592-2606 | Whatever the chunking, the delivered events, the failure and the count are those of the whole stream read at once. |
| SseFraming.FailureIsFinal | apps/cli/src/cli.ts:2596-2605 | Once reading has failed, the rest of the stream changes nothing. |
| SseFraming.MessageIsReadBack | apps/cli/src/cli.ts:2726-2761 | One message written with LF or with CRLF line breaks is parsed to its event name and its data. |
| SseFraming.WrittenStreamIsReadBack | apps/cli/src/cli.ts:2640-2761 | A list of messages written one after the other, all LF or all CRLF, is cut into exactly those messages and each is read back. |
| SseFraming.WrittenEventsAreDelivered | apps/cli/src/cli.ts:2592-2761 | Whatever chunks a written stream arrives in, what reading delivers is the readable data of the messages named "event", in order, up to the first unreadable one. |
| SseAnswers.LineAnswers | apps/cli/src/cli.ts:2730-2752 | For any line, written by whomever: the part before the first colon names the field, the part behind it is the value without one space in front; only event and data count. |
| SseAnswers.BreakAnswers | apps/cli/src/cli.ts:2730 | A carriage return right before a line feed goes with it, every other one stays. |
| SseAnswers.UnfinishedMessageIsDelivered | apps/cli/src/cli.ts:2592-2670 | A last message that no blank line ends is delivered like the others at the end of the stream, white space is not. |
| ProcessLock.CheckDurations | apps/daemon/src/sqlite-daemon-process-lock.ts:47-58 | The options are accepted exactly when the heartbeat is positive and shorter than the time to live. |
| ProcessLock.DaemonProcessLock.AcquireLock | apps/daemon/src/sqlite-daemon-process-lock.ts:79-118 | One step on the shared row: another's unexpired row refuses it, anything else makes the row this owner's. |
| ProcessLock.DaemonProcessLock.StartHeartbeat | apps/daemon/src/sqlite-daemon-process-lock.ts:120-136 | Starts the timer exactly when the process believes it holds the lock. |
| ProcessLock.DaemonProcessLock.SendHeartbeat | apps/daemon/src/sqlite-daemon-process-lock.ts:138-168 | One update of the row; without one changed row the flag and the timer go. |
| ProcessLock.DaemonProcessLock.ReleaseLock | apps/daemon/src/sqlite-daemon-process-lock.ts:170-190 | Deletes the row only if it still names this owner, and closes the process for good. |
| ProcessLock.AcquireAnswers | apps/daemon/src/sqlite-daemon-process-lock.ts:79-118 | An acquire fails exactly for a closed database or for another owner whose time is not over, and then changes nothing; otherwise the row is its own with all times anew. |
| ProcessLock.HeartbeatAnswers | apps/daemon/src/sqlite-daemon-process-lock.ts:138-168 | A heartbeat succeeds exactly when the flag is set and the row names the process, however long ago it expired; owner and start stay, the time to live begins anew. It fails as not acquired exactly without the flag, and otherwise takes the flag away. |
| ProcessLock.ReleaseAnswers | apps/daemon/src/sqlite-daemon-process-lock.ts:170-190 | A release closes the process and removes the row exactly when it still names a process that believed it held the lock. |
| ProcessLock.InvStep | apps/daemon/src/sqlite-daemon-process-lock.ts:79-190 | Every step of every process keeps: each process whose last renewal is younger than its time to live owns the row, with the expiry that renewal set. |
| ProcessLock.MutualExclusion | apps/daemon/src/sqlite-daemon-process-lock.ts:79-190 | In every state reachable from any leftover row, with any times to live and a nondecreasing clock, a live process owns an unexpired row, so at most one process is live. |
| ProcessLock.FlagsStayExclusiveIff | apps/daemon/src/sqlite-daemon-process-lock.ts:84-116 | From a state in which at most one process carries the acquired flag, a step keeps that exactly when it is not an acquire that finds the row free, expired or its own while another process carries the flag. |
| ProcessLock.FlagsAreExclusiveIff | apps/daemon/src/sqlite-daemon-process-lock.ts:79-190 | Over every run from exclusive flags the acquired flags are exclusive at every point exactly when no step of the run is such an acquire. |
| ProcessLock.FlagsFromTheStartIff | apps/daemon/src/sqlite-daemon-process-lock.ts:79-190 | The same for every run of fresh processes from any leftover row. |
| ProcessLock.OthersCannotDisplaceALiveHolder | apps/daemon/src/sqlite-daemon-process-lock.ts:84-110 | While a holder's lease is live no step of another process touches the row, and its acquire fails. |
| ProcessLock.LostHeartbeatWasLate | apps/daemon/src/sqlite-daemon-process-lock.ts:161-167 | A heartbeat that fails because the lock was lost comes at least a whole time to live after the last renewal. |
| ProcessLock.DiligentHolderKeepsTheLease | apps/daemon/src/sqlite-daemon-process-lock.ts:56-168 | A holder that renews at gaps shorter than its time to live is never displaced and none of its renewals fails, whatever the others do. |
| ProcessLock.ReleaseFreesOnlyItsOwn | apps/daemon/src/sqlite-daemon-process-lock.ts:170-190 | A release frees the owner's own row and nobody else's, however stale the releasing process is. |
| ProcessLock.ExpiredLeaseCanBeTaken | apps/daemon/src/sqlite-daemon-process-lock.ts:79-110 | An acquire succeeds exactly when there is no row, the row has expired or it is this owner's, and then the process is live. |
| AuditOrder.KeptAreGreatest | apps/daemon/src/operation-audit-log.ts:811-816 | The kept entries are sorted, as many as the bound allows, and every entry not kept comes before every kept one. |
| AuditOrder.SortIsStable | apps/daemon/src/operation-audit-log.ts:1229-1231 | Sorting any entries leaves none out of order and keeps the order of those with one id and one time stamp. |
| AuditOrder.CutInsertCut | apps/daemon/src/operation-audit-log.ts:124-126 | Cutting after each insertion gives the same as cutting once at the end. |
| AuditLog.InMemoryAuditLog.Record | apps/daemon/src/operation-audit-log.ts:118-129 | The entry is appended, then the list is pruned. |
| AuditLog.InMemoryAuditLog.Prune | apps/daemon/src/operation-audit-log.ts:803-824 | The loop that splices from the end leaves exactly the entries whose ids are among the greatest ones, in place order. |
| AuditLog.InMemoryAuditLog.List | apps/daemon/src/operation-audit-log.ts:131-133 | The last entries in ascending order, up to the normalised limit. |
| AuditLog.NormalizeLimit | apps/daemon/src/operation-audit-log.ts:500-510 | A limit is refused exactly when it is given and no positive safe integer; otherwise it is the least of it, or 100, and 1000. |
| AuditLog.MemoryHoldsGreatest | apps/daemon/src/operation-audit-log.ts:118-129 | After any records with distinct ids the log holds exactly the greatest entries of the whole history. |
| AuditLog.PruneReachesItsBound | apps/daemon/src/operation-audit-log.ts:803-824 | Pruning reaches its bound exactly when no dropped entry shares its id with a kept one. |
| AuditLog.RecordStaysWithinIff | apps/daemon/src/operation-audit-log.ts:118-129 | One more record leaves at most the bound exactly when its prune drops no entry whose id a kept one has. |
| AuditLog.LogStaysWithinIff | apps/daemon/src/operation-audit-log.ts:118-129 | Over any history, with ids repeated or not, the log is within its bound throughout exactly when no record of it makes such a prune. |
| AuditLog.RepeatedIdsExceedTheBound | apps/daemon/src/operation-audit-log.ts:118-129 | Two entries with one id both outlive a bound of one. |
| AuditLog.JsonFileAuditLog.Record | apps/daemon/src/operation-audit-log.ts:191-206 | A known id is refused and changes nothing; otherwise entry, pruning and sorted file follow. |
| AuditLog.JsonHoldsGreatest | apps/daemon/src/operation-audit-log.ts:191-244 | Over any records and restarts no record is refused, and memory and file hold the greatest entries of the history. |
| AuditLog.SqliteAuditLog.Record | apps/daemon/src/sqlite-operation-audit-log.ts:66-96 | A repeated id is refused and changes nothing; otherwise the row is inserted and the table pruned. |
| AuditLog.SqlPrunesTheSame | apps/daemon/src/sqlite-operation-audit-log.ts:183-200 | The DELETE keeps, in place, the rows the array code keeps. |
| AuditLog.SqlListsTheSame | apps/daemon/src/sqlite-operation-audit-log.ts:98-116 | The nested SELECT lists what the array code lists. |
| AuditLog.SqlHoldsTheSameRows | apps/daemon/src/sqlite-operation-audit-log.ts:66-96 | Row for row the table holds what the in-memory log holds. |
| AuditLog.AllFormsListTheSame | apps/daemon/src/operation-audit-log.ts:118-244 | For any history with distinct ids, any restarts and any limit the three forms list the same entries: the last of the greatest of the history. |
| AuditLog.EveryFormListsTheLatest | apps/daemon/src/operation-audit-log.ts:118-801 | For the same histories and any limit at all, each form lists the latest entries by time stamp and then id, exactly as many as the limit (100 without one), 1000, the bound and the history allow; exactly a limit outside 1 to the greatest safe integer is refused. |
| AuditLog.OpeningAnswers | apps/daemon/src/operation-audit-log.ts:212-244 | Opening any file: a repeated id is refused; within the bound all is taken over; beyond it the latest entries are kept and the file is cut to them. |
| AuditLog.JsonNeverHoldsAnIdTwice | apps/daemon/src/operation-audit-log.ts:191-244 | Over any run, ids repeated or not, neither the list nor the file holds an id twice; a record is refused exactly when its id is held then. |
| AuditLog.SqlNeverHoldsAnIdTwice | apps/daemon/src/sqlite-operation-audit-log.ts:66-96 | The same for the table. |
| AuditExport.JsonlSink.Rotate | apps/daemon/src/operation-audit-log.ts:329-342 | The loop of renames moves every file one place up, drops the oldest and leaves no current file. |
| AuditExport.JsonlSink.Write | apps/daemon/src/operation-audit-log.ts:307-318 | Rotates when the line would not fit, then appends it to the current file. |
| AuditExport.WriteAppendsAndDropsTheOldest | apps/daemon/src/operation-audit-log.ts:307-342 | Read from the oldest backup to the current file, a write adds one line at the end and takes at most the oldest file from the front. |
| AuditExport.WritingAnswers | apps/daemon/src/operation-audit-log.ts:307-342 | Files rotate exactly when there is a bound and the current file, not empty, would exceed it with the line, in bytes of UTF-8; every file's new content, rotated or not. |
| AuditExport.Utf8IsReadBack | apps/daemon/src/operation-audit-log.ts:309 | The bytes a character is counted as are its UTF-8 bytes: they give it back. |
| AuditExport.FilesHoldASuffix | apps/daemon/src/operation-audit-log.ts:307-342 | At every point the files are a suffix of everything written. |
| AuditExport.WriteKeepsBounds | apps/daemon/src/operation-audit-log.ts:307-342 | One write keeps the bounds of every file. |
| AuditExport.FilesStayBounded | apps/daemon/src/operation-audit-log.ts:307-342 | Starting empty, each file is within the byte bound or a single line, there are at most maxFiles backups without gaps, and two neighbours together exceed the bound. |
| Base64Url.DecodeOfEncode | apps/daemon/src/webget-session-store.ts:472-487 | Every byte string's encoding is accepted and decoded to it. |
| Base64Url.AcceptsExactlyEncodings | apps/daemon/src/webget-session-store.ts:215-244 | A text of the alphabet is accepted exactly when it is canonical, which is exactly when it encodes some byte string. |
| Base64Url.EncodeOfDecode | apps/daemon/src/webget-session-store.ts:472-487 | What an accepted text decodes to encodes back to that text, and is not empty unless the text is. |
| Base64Url.AlphabetIsInOrder | apps/daemon/src/webget-session-store.ts:472-487 | Sextets are written as capitals, small letters, digits, hyphen and underscore, in this order. |
| Base64Url.GroupsAreEncoded | apps/daemon/src/webget-session-store.ts:472-487 | Three bytes become the four characters of the same number, a rest of two or one becomes three or two, and longer strings go three bytes at a time. |
| Base64Url.SameTextSameBytes | apps/daemon/src/webget-session-store.ts:230-238 | Two accepted texts are equal exactly when their bytes are, so the duplicate check on text is one on bytes. |
| WebGet.ConcatBytes | apps/daemon/src/webget-session-store.ts:489-500 | The buffer filled chunk by chunk is the concatenation of the chunks. |
| WebGet.SessionStore.CreateSession | apps/daemon/src/webget-session-store.ts:125-160 | Draws until a token is not in use; the session is stored under the first such draw with no chunks, or the time to live or the token is refused. |
| WebGet.SessionStore.GetActiveSession | apps/daemon/src/webget-session-store.ts:379-392 | The session, or an error; an expired one is removed. |
| WebGet.SessionStore.SubmitChunk | apps/daemon/src/webget-session-store.ts:185-272 | The new sessions and the answer, with every check of the original in its order. |
| WebGet.SessionStore.CommitSubmission | apps/daemon/src/webget-session-store.ts:274-358 | Collects the chunks by number in a loop and answers as the specification does; no session changes but an expired one. |
| WebGet.SessionStore.FinalizeCommittedSession | apps/daemon/src/webget-session-store.ts:360-365 | Marks the session committed if it is there. |
| WebGet.SubmitKeepsLimits | apps/daemon/src/webget-session-store.ts:204-265 | A submission keeps one total of at most 64, numbers in range and distinct, chunk and total sizes; stored chunks never change. |
| WebGet.ReachableSessionsAreWithinLimits | apps/daemon/src/webget-session-store.ts:125-365 | Every session of every reachable store is within those limits. |
| WebGet.FullSessionIsContiguous | apps/daemon/src/webget-session-store.ts:304-320 | When there are as many chunks as their total, all numbers are there, and the commit's own size check cannot fail. |
| WebGet.Pigeonhole | apps/daemon/src/webget-session-store.ts:304-315 | Distinct numbers within 1..n are at most n, and n of them exactly when every number is there. |
| WebGet.AnyOrderIsAccepted | apps/daemon/src/webget-session-store.ts:185-272 | Pieces of a payload within the limits, sent in any order with any repeats before expiry, are never refused. |
| WebGet.CommitReassemblesThePayload | apps/daemon/src/webget-session-store.ts:185-358 | Once every piece was sent, a commit with the right total, length and hash hands exactly the payload to the reader of submissions. |
| WebGetAnswers.NumbersAreRead | apps/daemon/src/webget-session-store.ts:441-470 | The digits of every safe number are read as that number, leading zeros or not; nothing else is read as one. |
| WebGetAnswers.FindingAnswers | apps/daemon/src/webget-session-store.ts:379-392 | A session is found exactly until its time is over; then the request removes it. |
| WebGetAnswers.CreatingAnswers | apps/daemon/src/webget-session-store.ts:125-160 | Exactly a time to live that is not positive and an ill-formed token are refused; the new session is empty and can be found for exactly the time asked for, or ten minutes. |
| WebGetAnswers.SubmittingAnswers | apps/daemon/src/webget-session-store.ts:185-272 | A submission to a reachable session is refused exactly when one of sixteen checks fails, with the error of the first; otherwise a stored number stays as it is and a new one is stored with the bytes its data encodes. |
| WebGetAnswers.CommittingAnswers | apps/daemon/src/webget-session-store.ts:274-358 | A commit is refused exactly when a check fails, with the error of the first; what is committed is the reading of the stored bytes in the order of their numbers. |
| WebGetAnswers.CommitSucceedsIff | apps/daemon/src/webget-session-store.ts:185-358 | After any sends of pieces of a payload a commit succeeds exactly when all were sent, total, length and hash (capitals or not) are the payload's, and it passes the safety check and the reader. |
| WebGetAnswers.FinalizingAnswers | apps/daemon/src/webget-session-store.ts:360-365 | A finalized session refuses every submission and commit as already committed. |
| EnvFile.MergeReplaces | apps/daemon/src/setup-env.ts:442-473 | Saving a block that is in the file replaces it where it stands and touches nothing around it. |
| EnvFile.MergeAppends | apps/daemon/src/setup-env.ts:448-458 | A first save puts the block at the end of a non-blank file, behind one empty line. |
| EnvFile.MergingAnswers | apps/daemon/src/setup-env.ts:442-473 | For any text with markers anywhere in its lines: what is before and after the old block stays, one line break behind it goes, and one is put in front where there was none. |
| EnvFile.RemoveTakesOut | apps/daemon/src/setup-env.ts:475-511 | A clear takes the block out and joins both sides with one empty line, dropping at most one carriage return before it. |
| EnvFile.RemovingAnswers | apps/daemon/src/setup-env.ts:475-511 | For any text with markers anywhere in its lines: the block goes with one line break on each side, and one empty line joins what is left on both. |
| EnvFile.RemoveAfterMerge | apps/daemon/src/setup-env.ts:442-511 | Removing a block that was just added gives the text back with one or two line breaks more, never fewer or other changes. |
| EnvFile.RemoveAfterMergeBlank | apps/daemon/src/setup-env.ts:442-511 | In a blank or absent file the block is the whole file, and an empty file is left when it goes. |
| EnvFile.RemoveUndoesMergeIff | apps/daemon/src/setup-env.ts:442-511 | What a first save and a removal leave of any file without the block; it is the file itself exactly when the file was there and empty. |
| EnvFile.BodyIsBetween | apps/daemon/src/setup-env.ts:565-588 | The parser cuts out exactly the lines between the markers. |
| EnvFile.AbsentBlock | apps/daemon/src/setup-env.ts:475-574 | Without markers a clear changes nothing and the parser finds no block. |
| EnvValues.ValueIsReadBack | apps/daemon/src/setup-env.ts:880-912 | Any value, quoted or not, is read back as it was. |
| EnvValues.FormatAnswers | apps/daemon/src/setup-env.ts:880-886 | Exactly the non-empty values of letters, digits and seven signs are printed bare; others as JSON strings. |
| EnvValues.AssignmentAnswers | apps/daemon/src/setup-env.ts:590-616 | For any line: when it says nothing, when it is rejected for its name, its missing equals sign or its string, and which assignment it is otherwise. |
| EnvValues.NamesStayInPlace | apps/daemon/src/setup-env.ts:588-616 | Names keep the place where they were first set. |
| EnvValues.LineIsReadBack | apps/daemon/src/setup-env.ts:590-616 | A printed assignment is read back as the same name and value. |
| EnvValues.ParseManagedDaemonEnvBlock | apps/daemon/src/setup-env.ts:565-619 | The loop over the block's lines fills the map the specification gives, with the same errors, and keeps its names in the order in which they were first set. |
| EnvValues.BodyIsReadBack | apps/daemon/src/setup-env.ts:584-619 | The text between the markers of a printed block means exactly its assignments. |
| EnvValues.PrintedLineHasNoMarker | apps/daemon/src/setup-env.ts:880-886 | Printing and escaping never put a marker together that was not in the value. |
| ManagedFile.MarkersAreApart | apps/daemon/src/setup-env.ts:26-33 | No marker of either block occurs inside another marker. |
| ManagedFile.SaveStep | apps/daemon/src/setup-env.ts:442-473 | From any file a run can reach, a save succeeds, changes only its own block for a reader, and keeps the user's lines. |
| ManagedFile.ClearStep | apps/daemon/src/setup-env.ts:182-200 | From any file a run can reach, a clear succeeds, removes only the role block for a reader, and keeps the user's lines. |
| ManagedFile.BlockOfDoc | apps/daemon/src/setup-env.ts:565-619 | Each block of such a file is read back as the assignments it was saved with, or as absent. |
| ManagedFile.UserLinesOfDoc | apps/daemon/src/setup-env.ts:442-511 | The lines outside the marker lines of the text are the lines between its blocks, in order. |
| ManagedFile.RunsAreReadBack | apps/daemon/src/setup-env.ts:442-619 | After any saves and clears from any file without markers, with values that hold neither their block's END marker nor a marker of the other block: no step is rejected, each block is read back as last saved, and the user's non-blank lines are all there in order, up to final carriage returns. |
| MarkersInValues.CutLiteralIsNotRead | apps/daemon/src/setup-env.ts:888-912 | A printed literal cut before its closing quote cannot be read, wherever it is cut. |
| MarkersInValues.OwnBlockIsRead | apps/daemon/src/setup-env.ts:565-619 | Wherever a block stands, it is read back as its assignments when no value holds its END marker. |
| MarkersInValues.OwnBlockIsCut | apps/daemon/src/setup-env.ts:565-619 | Wherever it stands, its parse is rejected when a value holds its END marker. |
| MarkersInValues.OtherBlockIsRead | apps/daemon/src/setup-env.ts:565-619 | In a file with this block only, the parser of the other block rejects exactly the values that mislead it: those that hold its markers, unless one value is the first to hold both, BEGIN before END, with a blank, a comment or an assignment between; then that assignment is all it finds. |
| MarkersInValues.OtherLaterIsRead | apps/daemon/src/setup-env.ts:565-619 | With a block of any values standing before the other block, the parser of the other block rejects exactly the values that mislead it there; otherwise it finds that block when no value holds a marker of it, the one assignment between its markers when a value encloses one, and, when only its BEGIN is in a value, the rest of that value, the assignments and lines behind it, and then that block. |
| StartUp.DocSaveIsRead | apps/daemon/src/setup-env.ts:246-619 | From any file a run can reach a save of any values succeeds; start-up rejects the file exactly when a value holds the own END marker or the other block's parser is misled, and otherwise sets the saved values together with what that parser finds, the role block's over the provider block's. |
| StartUp.NextSaveIsReadIff | apps/daemon/src/setup-env.ts:246-619 | After any run of good saves and clears on any unmanaged file a save of any values succeeds, whatever blocks are there; start-up accepts the file exactly when the values are accepted in it, and loads them and the other block as last saved exactly when, besides, for each variable start-up may set, what the other parser is led to find makes no difference. |
| StartUp.NextSaveBesideOther | apps/daemon/src/setup-env.ts:246-619 | With the other block in the file or not, and values without a marker of it: start-up accepts the file, and reads both blocks back, exactly when no value holds the own END marker. |
| StartUp.SavedRequestSurvivesIff | apps/daemon/src/setup-env.ts:111-288 | A setup, or role defaults, that pass validation, saved to any file a run can reach: start-up accepts the file exactly when no printed value holds the own END marker and the other parser is not misled; the saved values and the other block survive the restart exactly when, besides, what that parser finds makes no difference to a variable start-up may set. |
| StartUp.ModelTextSetsAVariable | apps/daemon/src/setup-env.ts:537-619 | A setup whose model text encloses an assignment to a free managed variable in the role block's markers is accepted and used by the live daemon, start-up accepts its file, and sets that variable as the text says, even the model itself. |
| StartUp.EnclosingIsAccepted | apps/daemon/src/setup-env.ts:858-878 | The normalizer lets such a text through unchanged, for any name and plain value of moderate length. |
| StartUp.MarkerIsAccepted | apps/daemon/src/setup-env.ts:858-878 | The normalizer lets the text of any marker through unchanged. |
| StartUp.OtherBeginIsRejected | apps/daemon/src/setup-env.ts:537-563 | With the role block's BEGIN marker as a value the provider block itself is read back, and start-up rejects the file. |
| StartUp.OwnEndIsRejected | apps/daemon/src/setup-env.ts:537-619 | With a block's own END marker as a value start-up rejects the file. |
| LaterSteps.SecondSaveRepairsIff | apps/daemon/src/setup-env.ts:442-473 | After a save of any values to any file a run can reach, another save of the same block leaves the file as if only the second had been made, exactly when no value of the first holds the block's END marker. |
| LaterSteps.OtherStepSucceedsIff | apps/daemon/src/setup-env.ts:442-511 | After a save of any values, a save or a clear of the other block succeeds exactly when it finds that block's markers in order: always when that block stands first, by the order of the markers in the values otherwise. |
| SetupEnv.NormalizeText | apps/daemon/src/setup-env.ts:858-878 | An accepted text is the trimmed one, not empty, of at most 2048 characters and on one line. |
| Text.TrimmingAnswers | apps/daemon/src/setup-env.ts:858-863 | Trimming takes all spaces away from both ends, and nothing else. |
| SetupEnv.NormalizedDefaultsAreStable | apps/daemon/src/setup-env.ts:696-753 | Normalizing role defaults twice is normalizing them once. |
| SetupAnswers.SetupAnswer | apps/daemon/src/setup-env.ts:111-151 | In any state: a setup is refused as invalid exactly when a text is empty, too long, broken, a key too short, a text secret-like or the URL no good, as a bad file exactly when markers are out of order; otherwise the live key and model are the trimmed texts, the base URL the rewritten one, all switches and config ids are set, the review variables unless declined, and no other variable changes. |
| SetupAnswers.SetupIsWritten | apps/daemon/src/setup-env.ts:111-382 | Read back from the file, the block says the same of the request's fields. |
| SetupAnswers.DefaultsAnswer | apps/daemon/src/setup-env.ts:153-180 | The same for role defaults, model by model: the perspectives' models count only when switched on, blank models are not set. |
| SetupAnswers.DefaultsAreWritten | apps/daemon/src/setup-env.ts:153-366 | Read back from the file, the role block says the same of the request's fields. |
| SetupAnswers.ClearAnswer | apps/daemon/src/setup-env.ts:182-207 | A clear fails exactly for a bad file; otherwise exactly the role variables go. |
| SetupAnswers.ReadingAnswers | apps/daemon/src/setup-env.ts:209-234 | From any environment: when there are no role defaults, when they are refused, and each field otherwise. |
| SetupAnswers.StartUpAnswers | apps/daemon/src/setup-env.ts:246-288 | For each variable: start-up sets it exactly when a block names it, it is a managed one, and the environment has nothing but spaces for it. |
| SetupEnv.AppliedSetupIsOverlay | apps/daemon/src/setup-env.ts:384-440 | Applying a setup overlays its block's assignments, after the review variables are gone when they are not wanted. |
| SetupEnv.SetupIsApplied | apps/daemon/src/setup-env.ts:384-440 | Over any environment an applied setup gives every variable of its block the block's value, among them base URL, model and API key the setup's own, and leaves review variables exactly when review is wanted. |
| SetupEnv.Daemon.ApplySetup | apps/daemon/src/setup-env.ts:384-440 | The in-place updates and deletes give the specified environment. |
| SetupEnv.Daemon.ApplyRoleDefaults | apps/daemon/src/setup-env.ts:755-803 | Clears all role variables, then sets those that have a value. |
| SetupEnv.Daemon.HandleRequest | apps/daemon/src/setup-env.ts:111-207 | A rejected request changes neither file nor environment; any other changes the file and then the environment as specified. |
| SetupEnv.ParseManagedDaemonEnvBlocks | apps/daemon/src/setup-env.ts:537-563 | The assignments of both blocks, the role block's over the provider block's, and their names, each once, in the order of the file's maps. |
| SetupEnv.Daemon.LoadManagedEnvFile | apps/daemon/src/setup-env.ts:246-288 | Start-up sets the managed variables that have no value yet and lists, in that order, which were applied and which skipped; a file that cannot be read changes nothing. |
| SetupEnv.HandleKeeps | apps/daemon/src/setup-env.ts:111-207 | Every request, accepted or rejected, keeps file, environment and last accepted values in agreement, and the user's lines. |
| SetupEnv.RestartMatchesLiveIff | apps/daemon/src/setup-env.ts:246-803 | From a file without markers and any environment, after any requests a restart loads exactly the live environment if and only if the presets agree: a saved variable preset with text has the saved value, and no preset variable that requests took out is missing among the saved ones. |
| SetupEnv.RestartMatchesLive | apps/daemon/src/setup-env.ts:246-803 | So from an environment without managed variables the running daemon and the file never drift apart. |
| SetupEnv.RequestsKeepUserLines | apps/daemon/src/setup-env.ts:111-207 | No request loses or reorders a line of the user's. |
| SetupEnv.DefaultsAreReadBack | apps/daemon/src/setup-env.ts:209-234 | Over any environment, applied role defaults are read back as they were normalized. |
| SetupEnv.DefaultsSurviveRestart | apps/daemon/src/setup-env.ts:209-288 | After any requests and a restart the role defaults are those last accepted, or none once they were cleared. |
| Grants.ResolveExpiresAt | apps/daemon/src/resource-access-store.ts:479-494 | Expiry is later than now, at most an hour away, and never later than the explicit one. |
| Grants.NewGrant | apps/daemon/src/resource-access-store.ts:362-396 | A new grant has the trimmed ids and the exposure of its input, the token's hash, its creation time, a bounded expiry, no revocation and no access. |
| Grants.FindToken | apps/daemon/src/resource-access-store.ts:226-239 | A token that is given out is well formed and its hash is not in use. |
| Grants.FirstUnusedDecides | apps/daemon/src/resource-access-store.ts:226-239 | The first of ten draws that is not in use decides: it is given out if well formed, an ill-formed one is the error, and with ten in use no token is available. |
| Grants.ResourceAccessGrantStore.CreateUniqueToken | apps/daemon/src/resource-access-store.ts:226-239 | The loop of at most ten draws gives the first unused token, or the error of the first ill-formed one. |
| Grants.ResourceAccessGrantStore.CreateGrant | apps/daemon/src/resource-access-store.ts:150-165 | The store and the answer after a creation. |
| Grants.ResourceAccessGrantStore.RecordAccess | apps/daemon/src/resource-access-store.ts:167-210 | Revocation is checked before expiry, an expired grant is removed, a live one counts the access. |
| Grants.ResourceAccessGrantStore.RevokeGrant | apps/daemon/src/resource-access-store.ts:175-184 | The first revocation time stays. |
| Grants.ResourceAccessGrantStore.GetSafeView | apps/daemon/src/resource-access-store.ts:186-188 | Shows a stored grant without its hash and content location, and changes nothing. |
| Grants.StepKeepsStore | apps/daemon/src/resource-access-store.ts:150-210 | Every operation keeps: grants under their own hash, at most an hour of life, last access within that life and before revocation, an access count exactly when there was one. |
| Grants.StoresStayOk | apps/daemon/src/resource-access-store.ts:150-239 | This holds at every point of every run with a nondecreasing clock. |
| Grants.RevokedForever | apps/daemon/src/resource-access-store.ts:175-199 | A revoked grant never changes again, is never accessed and its token never reissued. |
| Grants.ExpiredForever | apps/daemon/src/resource-access-store.ts:201-207 | From expiry on a token gives nothing until the generator draws it again. |
| Grants.AccessSucceedsIff | apps/daemon/src/resource-access-store.ts:167-210 | An access succeeds exactly for a well-formed token of a stored grant that is neither revoked nor over, and adds one to its count. |
| Grants.CreationOf | apps/daemon/src/resource-access-store.ts:150-210 | Every stored grant stems from one creation; since then its count is the number of successful accesses, and unless it is revoked no revocation succeeded. |
| Grants.AccessHasItsGrant | apps/daemon/src/resource-access-store.ts:150-210 | Behind every successful access stands an earlier creation at most an hour old, not over and not revoked since, the new count is the number of successful accesses since, and the last access is now. |
| GrantsAnswers.ExpiryAnswers | apps/daemon/src/resource-access-store.ts:468-494 | The expiry is exactly the time to live from now, or the earlier time asked for; which times are refused. |
| GrantsAnswers.CreatingAnswers | apps/daemon/src/resource-access-store.ts:150-239 | A creation is refused exactly when a check fails, with the error of the first; otherwise the stored grant has every field the request asks for. |
| GrantsAnswers.MakingAnswers | apps/daemon/src/resource-access-store.ts:141-148 | A store is made with a time to live of up to an hour, or five minutes. |
| GrantsAnswers.AccessAnswers | apps/daemon/src/resource-access-store.ts:167-210 | Which error an access gets and when, which one removes the grant, and that otherwise only count and time change. |
| GrantsAnswers.RevokingAnswers | apps/daemon/src/resource-access-store.ts:175-184 | A revocation is refused for ill-formed and unknown tokens only, and changes nothing but the time, once. |
| GrantsAnswers.ViewingAnswers | apps/daemon/src/resource-access-store.ts:186-188 | A view shows each field of the grant but its hash, target and content reference. |
| SqliteGrants.SQLiteResourceAccessGrantStore.CreateGrant | apps/daemon/src/sqlite-resource-access-store.ts:75-119 | The transaction's loop of draws, with its conflict check, and the table after it; a throw leaves the table as it was. |
| SqliteGrants.SQLiteResourceAccessGrantStore.RecordAccess | apps/daemon/src/sqlite-resource-access-store.ts:121-169 | The delete on expiry is kept because the error is returned, not thrown, inside the transaction. |
| SqliteGrants.SQLiteResourceAccessGrantStore.RevokeGrant | apps/daemon/src/sqlite-resource-access-store.ts:171-194 | Updates the row only on the first revocation. |
| SqliteGrants.SQLiteResourceAccessGrantStore.GetSafeView | apps/daemon/src/sqlite-resource-access-store.ts:196-202 | Reads the row and changes nothing. |
| SqliteGrants.SelectAgrees | apps/daemon/src/sqlite-resource-access-store.ts:279-289 | Selecting by key is looking the key up in the map of the rows. |
| SqliteGrants.UpdateAgrees | apps/daemon/src/sqlite-resource-access-store.ts:346-361 | Updating by key is a map update of a known key. |
| SqliteGrants.DeleteAgrees | apps/daemon/src/sqlite-resource-access-store.ts:363-369 | Deleting by key removes that key from the map. |
| SqliteGrants.CreateAgrees | apps/daemon/src/sqlite-resource-access-store.ts:79-112 | The transaction creates what the store in memory creates, unless the id is in the table. |
| SqliteGrants.StepsMatch | apps/daemon/src/sqlite-resource-access-store.ts:75-202 | One operation gives the same answer and the same grants on both stores exactly when it is not an otherwise valid creation with an id that is in the table; keys and ids stay unique. |
| SqliteGrants.SecondUseOfAnIdDiffers | apps/daemon/src/sqlite-resource-access-store.ts:93-98 | From the empty stores, two creations with one id under two tokens come to a clash: memory creates both, SQLite refuses the second. |
| SqliteGrants.AnswersAgreeIff | apps/daemon/src/sqlite-resource-access-store.ts:75-202 | Over every run, whatever its ids, both stores give the same answers exactly when no creation clashes; then they hold the same grants. |
| SqliteGrants.EmptyStoresAgreeIff | apps/daemon/src/sqlite-resource-access-store.ts:75-202 | The same from the empty stores. |
| SqliteGrants.StoresAgree | apps/daemon/src/sqlite-resource-access-store.ts:75-202 | With fresh ids both stores answer alike over every run and always hold the same grants. |
| SqliteGrants.SqliteAnswersTheHistory | apps/daemon/src/sqlite-resource-access-store.ts:75-202 | Every answer of the SQLite store is the answer of the store in memory at the same point of its history. |
| EventBus.DaemonEventBus.Subscribe | apps/daemon/src/event-stream.ts:9-20 | Adds the listener to the session's set, making one if there is none, and gives a handle bound to that set. |
| EventBus.DaemonEventBus.Unsubscribe | apps/daemon/src/event-stream.ts:14-19 | Takes the listener out of the handle's set and, if that empties it, drops the session's entry. |
| EventBus.DaemonEventBus.Publish | apps/daemon/src/event-stream.ts:22-33 | Delivers to the session's current listeners in their order. |
| EventBus.DaemonEventBus.ListenerCount | apps/daemon/src/event-stream.ts:35-37 | The number of the session's current listeners. |
| EventBus.DeliveredOnce | apps/daemon/src/event-stream.ts:28-32 | Each listener of the session gets the event once, and nobody else gets it. |
| EventBus.BusRefinesPlainLists | apps/daemon/src/event-stream.ts:9-20 | With each handle called at most once and no double subscription, every step does what a plain list per session would: a call never drops another listener. |
| EventBus.BusIsPlain | apps/daemon/src/event-stream.ts:9-20 | From an empty bus, over every such run, each session's listeners are those of the plain list, without duplicates. |
| EventBus.CallIsPlainIff | apps/daemon/src/event-stream.ts:14-19 | When no set serves two sessions and none holds a listener twice, one call of a handle does to its session what the plain list does exactly when it does not displace another subscription. |
| EventBus.StepIsSound | apps/daemon/src/event-stream.ts:5-19 | Every subscription and every call, repeated ones too, keep this: a set never serves two sessions, now or through a handle, and holds each listener once. |
| EventBus.BusIsPlainIff | apps/daemon/src/event-stream.ts:5-19 | From an empty bus, over any run of subscriptions and calls, every session has the plain list's listeners at every point exactly when no call of the run displaces another subscription. |
| EventBus.SecondCallDropsAnother | apps/daemon/src/event-stream.ts:14-19 | A second call of a handle drops a listener that subscribed after the first. |
| EventBus.DoubleSubscriptionDropsAnother | apps/daemon/src/event-stream.ts:9-19 | So does the first call of a second handle of one listener. |
| RunPublishing.NewIsAppended | apps/daemon/src/run-orchestration.ts:940-951 | What is new since the ids were taken is exactly what was appended to the session since, in order. |
| RunPublishing.NewAnswers | apps/daemon/src/run-orchestration.ts:940-951 | From any log at all, what is new comes in the order of the sequence numbers, each event as often as it is there. |
| RunPublishing.ListenerGetsAll | apps/daemon/src/run-orchestration.ts:946-948 | A listener of the session gets all published events, each once, in order. |
| RunPublishing.DaemonRunService.PublishNewEvents | apps/daemon/src/run-orchestration.ts:940-951 | Publishes the new events one by one and returns their ids. |
| RunPublishing.DaemonRunService.ExecuteWithEventPublishing | apps/daemon/src/run-orchestration.ts:917-938 | The new events are published whether the stage returns or throws; ids are returned only when it returns. |
| RunPublishing.DaemonRunService.ComponentsAvailable | apps/daemon/src/run-orchestration.ts:953-1060 | The loop over the stages finds a missing component exactly when a requested stage has none. |
| RunPublishing.DaemonRunService.StartRun | apps/daemon/src/run-orchestration.ts:493-789 | Nothing is run, appended or published when a requested component is missing; otherwise the stages with their stopped flag and stop reason give the specified reply, store and deliveries. |
| RunPublishing.RunPublishesWhatItAppends | apps/daemon/src/run-orchestration.ts:493-951 | The stages' id lists concatenate to exactly the session's events appended, also a throwing stage's events are published, and a listener subscribed throughout gets each once in order. |
| RunPublishing.RunIdsAreDistinct | apps/daemon/src/run-orchestration.ts:928-951 | No event id is in two stages' lists or twice in one. |
| RunPublishing.RunStopsAtFirstReason | apps/daemon/src/run-orchestration.ts:539-788 | Requested stages run in their order up to the first that gives a reason, which is the reply's; if none does, all of them have run. |
| RunAnswers.RunIsAnswered | apps/daemon/src/run-orchestration.ts:493-789 | With stages and statuses written out: a run reaches its requested stages in order up to the first that is already running, failed or waits for somebody; it lists exactly these with their statuses, gives that status as the reason, and fails exactly when a reached stage throws. |
| StageInterleaving.EndPublishesSinceBegin | apps/daemon/src/run-orchestration.ts:917-951 | However executions overlap, one that ends publishes exactly its session's events appended since it began, in order. |
| StageInterleaving.EveryEventIsPublished | apps/daemon/src/run-orchestration.ts:917-951 | An event appended while an execution of its session is open is published once that ends. |
| StageInterleaving.PublishedOncePerCover | apps/daemon/src/run-orchestration.ts:917-951 | The exact count: an event is published once for every ended execution of its session that was open when it was appended. |

## Left out

- HTTP routes, authentication, static files, command dispatch, the web client, presets and text tables: wiring and presentation around these kernels.
- Provider adapters, the round runners, the event store's hash chain: they live in other packages; a stage is an arbitrary list of appended events and an outcome, and the store an append-only sequence with unique ids and growing sequence numbers.
- What the text checks for secrets catch, SHA-256, `JSON.parse` of payloads, URL parsing and the reading of submissions: parameters of the model.
- UTF-8 decoding of stream chunks: chunks are text; a character split over two chunks is not modelled. Characters are Unicode scalar values, so lengths of texts beyond the basic plane count one, not two.
- JsonText.UnquoteOfQuote: the reader refuses `\u` escapes of surrogate code units, which the printer never writes for the texts of the model.
- Optional code fences and the choice between a raw, a fenced and an embedded object: only the embedded scanner is modelled.
- File-system failures in the middle of an operation, SQLite busy errors and pragmas, and the temporary file behind an atomic rename.
- Clocks are read once per operation; the in-memory grant store reads its clock twice in an access.
- `localeCompare` and SQLite's text order are one strict total order, a parameter.
- WebGet.SessionStore.CreateSession: a generator that draws only tokens in use for ever is not modelled; the draws come with the call.
- The optional details of audit entries, resource access reports of a WebGET session and its public and status views: projections of what is modelled.
- AuditExport.JsonlSink.Write: the line is given; printing an entry as JSON and the HTTP export are not part of this model.
- SetupEnv.NormalizeText: values that are not texts are not modelled, nor are the messages of the errors.
- Grants.ResourceAccessGrantStore.CreateGrant: times and time spans that are not whole numbers are not modelled; the stored record is a value that is replaced, where the original updates an object nobody else refers to.
- SqliteGrants.SQLiteResourceAccessGrantStore.CreateGrant: columns that are only written and never read are left out, and the JSON column holds the record itself.
- LaterSteps.OtherStepSucceedsIff: says when such a step succeeds; what it leaves of a block whose values hold the other block's markers is not stated.
- URL signatures of grants and the classification of base URLs: they keep no state.
- EventBus.DaemonEventBus.Subscribe: a listener set is known by its place in a list of all sets instead of by object identity; listeners do not throw synchronously and do not change the bus while they are called.
- RunPublishing.DaemonRunService.ComponentsAvailable: for each stage it is given whether its components are registered; the look-ups in the registries are not modelled.
- RunPublishing.DaemonRunService.StartRun: which components exist comes with the call; the check of the request for secrets, the per-stage result data and the run record in the reply are not modelled.
- Acceptance of process proposals, outcomes and run listings: they only read.
