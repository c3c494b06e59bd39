# Notes assistant: a verified model

A Dafny model of the parts of the notes assistant whose correctness spans
several functions or a whole run, with proofs of what they guarantee. `dafny
verify dfyconfig.toml` checks everything.

**Durable voice jobs** (`VoiceJob`, `VoiceProtocol`, `VoiceGuarantees`,
`VoiceResults`, `VoiceProgress`, `VoiceWorker`, `VoiceRefinement`, `VoiceWriters`). A
voice message becomes a row
that leased workers carry from checkpoint to checkpoint: status message, upload,
result, acknowledgement, append to a note. `VoiceProtocol` is a state machine over
the rows, the workers' copies, the backend, the append requests and the notes. A
worker may crash or stall anywhere, leases expire, statements and calls take effect
with their reply lost, an append request once sent may be executed later and more
than once, and Release writes the in-memory job after a failed step too. Proved of
every run: one job per message, no operation twice in the notes, each closed note
job with text written by exactly one step, to the destination fixed at acceptance,
appends in message order per chat, checkpoints that never go back, and the backend's
transcript, word for word, in the row and in the note (`VoiceResults`). A job whose
calls succeed is closed by its eighth pass (`VoiceProgress`). `VoiceWorker`
is the code in its own form (store, job object, bounded step, loop, acceptance,
polling), and `VoiceRefinement` shows that a pass of that loop is a run of the
protocol.

**Notes** (`Text`, `Trim`, `Sections`, `NoteMarkers`, `MarkedText`, `Rating`,
`TaskLines`, `Tasks`, `TaskAdding`, `TaskCycle`, `StatusPrefix`, `NoteEdits`, `SampleNotes`,
`NoteVault`, `NoteStore`, `NoteLocks`). The commit record of a keyed append is a
marker line in the note itself. The editors rewrite the same text through two decompositions, at `---` and
at line breaks; `Sections` and `MarkedText` relate the two, and the editors are
proved against their parsers and against the marker lines. `NoteLocks` interleaves
keyed appends and all other writers lock by lock and line read by line read, and
shows every run to be serial. A writer may stop between any two of its actions. Such
a run is a piece of a run of the voice protocol (`VoiceWriters`).

**Schedules** (`Calendar`, `Scheduler`). The proleptic Gregorian calendar and
ComputeNextFire as a least-occurrence function, scan bounds included; weekdays are
counted from Thursday, 1 January 1970.

**Search** (`Fusion`, `Chunker`, `ChunkShapes`, `ChunkOrigins`, `ChunkEnds`, `IndexTables`,
`FrontMatter`, `Indexer`). Rank fusion with scores as
reals, conservation of text by chunking, and the index (notes, chunks, embeddings and
their markers) as tables that change one statement at a time, where each statement
may fail before or after its effect.

**Others**: backup retention (`Retention`), the voice reorder buffer
(`ReorderBuffer`), typed durations and their labels (`Duration`), and the masking
log writer with the secrets it can and cannot hide (`MaskWriter`,
`Masking`, `MaskHistories`).

Conventions. Texts are sequences of code points. Go's `int` is modelled where it can
wrap or clamp: ratings, durations. hex(SHA-256) is replaced by a digest that is
hexadecimal and injective (`NoteMarkers.Digest`); nothing else is used of it. The
template and unkeyed texts hold no marker prefix: that is a hypothesis of the
theorems that need it. Times are numbers and replies of services are parameters.

Where the code differs from its comments or from what one expects, the model follows
the code:

- An empty listing is said never to purge the index; the deletion loop still runs
  (`Indexer.Index.SyncOnce`, last clause).
- A failed note in the chunk backfill is not counted in the pass's statistics, so a
  pass without errors may leave stale notes; they stay selected
  (`Indexer.Index.SyncOnce` counts them apart, as `skipped`).
- Front matter is stripped twice: from a note for its body, and from the body when it
  is chunked. A note marked current has the chunks of its content as rows exactly when
  the second strip takes nothing, or lines without text and without a heading that a
  later chunk stands under (`FrontMatter.CurrentExactly`); `FrontMatter.TextCanBeLost`
  is a note whose text is in no row.
- After a change of the chunker, a process that stops between writing a note's chunk
  rows and clearing its marker of embeddings leaves old vectors marked current:
  `IndexTables.MarkerOutlives` says exactly when, `OldVectorsCanPass` that it can.
  Otherwise the markers are sound however a pass ends (`Indexer.Index.SyncOnce`).
- Removing a completion tag from the middle of a line can bring a marker prefix
  about: `SampleNotes.StatusCanExpose` is a note on which it does, and
  `NoteEdits.StatusKeepsMarkers` says exactly when the markers are kept.
- A new task can split the line that the section shares with its opening delimiter
  (`SampleNotes.TaskCanSplit`); `TaskAdding.OtherLinesKept` says exactly when other
  lines are kept.
- A task text that ends in a dash, put directly in front of the closing delimiter,
  moves the delimiter and is read back without its dashes
  (`TaskAdding.AddedTaskCut`); `TaskAdding.AddedTask` says exactly which texts are
  read back as entered.
- A service that answers with an empty id or blob leaves the job as it was, and the
  call is repeated (`VoiceJob.ReplyProgress`).
- The reorder buffer does not expect an id to be registered while it is held. Each
  such registration leaves one entry too many for ever
  (`ReorderBuffer.NeverEmptyAgain`), and once everything is completed the buffer is
  empty exactly when there was none (`ReorderBuffer.DrainsExactly`).
- Masking a secret can bring it about again when a mask can be part of it, and a
  secret with a line break inside is never masked (`Masking.NeverShownExactly`). Sync
  flushes an unfinished line: one within a line shows any other secret of more than one
  character (`MaskHistories.SyncShows`), so that over all histories only secrets of one
  character stay hidden, and over those that sync between lines and do not fail exactly
  the ones above (`HiddenAlwaysExactly`, `HiddenOrderlyExactly`).
- A suggested or accepted duration is what was typed exactly when that fits an int
  (`Duration.SuggestionParses`, `Duration.AcceptedMeans`); `Duration.AcceptedCanWrap`
  and `Duration.OverflowCanClamp` are durations that do not.

## Model

| member | source | states |
|---|---|---|
| VoiceJob.CheckpointExtends | frontends/telegram/tghandlers/voice_durable.go:150-282 | a successful reply adds a checkpoint and undoes none; the payload stays coherent |
| VoiceJob.ReplyProgress | frontends/telegram/tghandlers/voice_durable.go:150-282 | an answered action lowers the number of unset checkpoints exactly when the reply carries something; after one that does not (an empty id or blob, still running) the job is as before |
| VoiceJob.ZeroDelayProgress | frontends/telegram/tghandlers/voice_durable.go:150-282 | so each zero-delay step changes nothing or lowers that number, and undoes no checkpoint |
| VoiceJob.SuccessfulRunsEnd | frontends/telegram/tghandlers/voice_durable.go:114-148 | over any run at most seven zero-delay steps change the job, however cancellations arrive |
| VoiceJob.NoStepLeft | frontends/telegram/tghandlers/voice_durable.go:239-282 | a job that none would change is at its final delivery and may be closed |
| VoiceProtocol.StepCore | internal/voicejobs/store.go:116-204 | every step, crash and lost reply keeps the invariant of rows, tokens, workers and requests |
| VoiceProtocol.StepMarkers | frontends/telegram/tghandlers/voice_durable.go:284-297 | every step keeps: one marker per appended operation, in its destination, and none for others |
| VoiceGuarantees.ExactlyOnce | frontends/telegram/tghandlers/voice_durable.go:31-297 | in every reachable state: one job per message, no operation marked twice or elsewhere, each closed note job with text marked once in the destination fixed at acceptance |
| VoiceGuarantees.WrittenOnce | core/append_once.go:83-152 | for every closed note job with text exactly one step of the whole run wrote its text and marker |
| VoiceGuarantees.ChangesAreBlocks | core/append_once.go:83-152 | every protocol step leaves the notes alone or appends one block of a job's text and marker |
| VoiceGuarantees.AppendsInMessageOrder | frontends/telegram/tghandlers/voice_durable.go:239-266 | with jobs of a chat accepted in message order, their appends take effect in that order, stale workers included |
| VoiceGuarantees.CheckpointsNeverGoBack | internal/voicejobs/store.go:157-183 | no durable checkpoint is undone by any writer, over whole runs |
| VoiceGuarantees.AckedResultIsStored | frontends/telegram/tghandlers/voice_durable.go:199-238 | an acknowledged job has its final result in the row, then and ever after |
| VoiceGuarantees.CancelledNeverUploaded | frontends/telegram/tghandlers/voice_durable.go:167-179 | a job closed as cancelled without a remote id was never uploaded, by any worker at any time |
| VoiceResults.ResultIsTheAnswer | frontends/telegram/tghandlers/voice_durable.go:199-225 | over whole runs: a ready result is the transcript the backend answered, word for word, or says failed because the backend did, or cancelled because the user did; the remote id, the acknowledgement and the preview are what was answered |
| VoiceResults.TranscriptIsStored | frontends/telegram/tghandlers/voice_durable.go:206-208 | so the row of a ready job holds the backend's transcript, unless the user cancelled it in time |
| VoiceResults.TranscriptIsWritten | frontends/telegram/tghandlers/voice_durable.go:206-266 | and for a closed note job exactly one step of the run wrote that transcript with its marker at the end of the note it was accepted for |
| VoiceResults.VoiceAppendWrites | frontends/telegram/tghandlers/voice_durable.go:284-297 | the append of a job no note holds yet succeeds for every id of hexadecimal digits and dashes: its note ends in transcript and marker, no other note changes |
| VoiceResults.RequestSucceeds | frontends/telegram/tghandlers/voice_durable.go:284-297 | in every reachable state a request once sent is answered as done, executed before or not, unless its note is missing or its text refused |
| VoiceProgress.LeaseLasts | internal/voicejobs/sql/claim.sql:1-7 | for 240 seconds after a claim nobody else can claim and only this worker can write; after them the reverse |
| VoiceProgress.SomeoneIsFront | internal/voicejobs/sql/front.sql:1-2 | while a chat has an open job, one of its open jobs is at the front |
| VoiceProgress.ClosedByTheEighth | frontends/telegram/tghandlers/voice_durable.go:114-282 | a due job is closed, its result delivered, by the eighth pass at the latest whose calls all succeed |
| VoiceWorker.Store.Find | internal/voicejobs/store.go:140-142 | a job for the message if there is one |
| VoiceWorker.Store.Enqueue | internal/voicejobs/store.go:116-122 | a new due row, unless the message has a job |
| VoiceWorker.Store.Claim | internal/voicejobs/sql/claim.sql:1-7 | the first due row without a live lease by due time, creation and message, leased under a fresh token; none exactly when no row is due |
| VoiceWorker.Store.Save | internal/voicejobs/sql/save.sql:1-2 | writes the job exactly when the lease is still held and the statement commits, and says so unless the reply is lost |
| VoiceWorker.Store.Release | internal/voicejobs/sql/release.sql:1-3 | writes the job and drops the lease exactly when it is still held and the statement commits |
| VoiceWorker.StepFields | frontends/telegram/tghandlers/voice_durable.go:150-282 | field by field, what a step leaves in the job: each field changes in one situation only, to what was answered in it |
| VoiceWorker.StepRecords | frontends/telegram/tghandlers/voice_durable.go:150-282 | the row is that job exactly when the lease is held and the statement commits; the worker goes on with a changed job only when the row holds it |
| VoiceWorker.EditDurableResult | frontends/telegram/tghandlers/voice_durable.go:318-332 | a deleted status message is recreated and saved before it is edited; success is a delivered edit |
| VoiceWorker.VoiceStep | frontends/telegram/tghandlers/voice_durable.go:150-282 | job, row, closing, delay and error after one step, for every combination of replies; and by fields: the transcript, id, error or message answered is in the job, and in the row when that is saved |
| VoiceWorker.StatusStep | frontends/telegram/tghandlers/voice_durable.go:156-164 | as above, for a job without a status message: the id of the one sent, and nothing else |
| VoiceWorker.CancelStep | frontends/telegram/tghandlers/voice_durable.go:165-174 | as above, for a cancelled job not yet uploaded, or with a remote id once the backend agrees: error and ready, nothing else |
| VoiceWorker.SubmitStep | frontends/telegram/tghandlers/voice_durable.go:175-199 | as above, for the intent to upload and then the upload: the id answered, and nothing else |
| VoiceWorker.PollStep | frontends/telegram/tghandlers/voice_durable.go:200-225 | a transcript answered is the job's text, a failure its error, and either makes it ready, in the row too when the lease is held and the statement commits; other answers change nothing |
| VoiceWorker.AckStep | frontends/telegram/tghandlers/voice_durable.go:226-239 | as above, for a saved result not yet acknowledged |
| VoiceWorker.AppendStep | frontends/telegram/tghandlers/voice_durable.go:254-266 | as above, for the append of the text to the note |
| VoiceWorker.PrepareStep | frontends/telegram/tghandlers/voice_durable.go:268-275 | as above, for the preview of a smart job or reminder |
| VoiceWorker.FrontStep | frontends/telegram/tghandlers/voice_durable.go:240-282 | as above, for any job at the front of its chat |
| VoiceWorker.RunVoiceJob | frontends/telegram/tghandlers/voice_durable.go:114-148 | one pass claims a due row and leaves the table a step and release would; checkpoints only grow |
| VoiceWorker.RunVoiceJobs | frontends/telegram/tghandlers/voice_durable.go:114-148 | the same over any number of passes |
| VoiceWorker.AcceptVoice | frontends/telegram/tghandlers/voice_durable.go:31-110 | success means the message has a row or needs none; a known message changes nothing |
| VoiceWorker.ProcessBatch | cmd/telegram/main.go:422-443 | the offset passes an update only once it is settled, and stops at the first voice message that is not |
| VoiceRefinement.StepIsAPath | frontends/telegram/tghandlers/voice_durable.go:150-282 | what a step of the code does, the protocol does in a few of its steps |
| VoiceRefinement.PassIsARun | frontends/telegram/tghandlers/voice_durable.go:114-148 | a pass of the code's loop, claim to release, is a run of the protocol to the same table |
| VoiceRefinement.PassExtendsRun | frontends/telegram/tghandlers/voice_durable.go:114-148 | so passes extend reachable runs, and every guarantee holds of what the code leaves |
| VoiceWriters.StoreEditIsAllowed | core/stores.go:157-490 | every operation of the note store but keyed appends by date is a step the protocol allows to others |
| VoiceWriters.DatedAppendIsAllowed | core/append_once.go:83-152 | so is a keyed append by date whose id is not a voice job's |
| VoiceWriters.CommitIsAStep | core/append_once.go:83-152 | each commit of interleaved writers is one step of the protocol: a request executed, or a step of others |
| VoiceWriters.LockRunIsAPath | core/append_once.go:83-187 | a run of interleaved writers, lock by lock, is a piece of a run of the protocol and leaves the same notes |
| VoiceWriters.StoreRunIsAPath | core/stores.go:157-491 | so are the runs of the store's own operations, admissible and with ids of their own, and of the requests pending |
| VoiceWriters.VoiceAppendIsWellMarked | frontends/telegram/tghandlers/voice_durable.go:284-297 | a voice append keeps all marker lines well formed |
| VoiceWriters.StepsStayWellMarked | frontends/telegram/tghandlers/voice_durable.go:284-297 | so does every step of the protocol, if the other writers do |
| NoteMarkers.DigestInjective | core/append_once.go:109-113 | no two texts share a digest |
| NoteMarkers.MarkerKey | core/append_once.go:109-113 | a marker mentions its own operation's key and no other's |
| NoteMarkers.MarkerInjective | core/append_once.go:109-113 | a marker fixes destination and text |
| NoteMarkers.AppendLines | core/stores.go:278-312 | the lines after an append: a fresh line, the block's lines, a final break |
| NoteMarkers.AppendAfterEnded | core/stores.go:278-292 | an append repeated after one that stopped behind its newline leaves what one append would |
| NoteMarkers.PlainAppendHits | core/stores.go:177-222 | an unkeyed append adds no marker of any operation |
| NoteMarkers.KeyedAppendHits | core/append_once.go:147-151 | a keyed append adds one marker, of its own operation |
| NoteVault.AppendOnceEffect | core/append_once.go:83-152 | a completed append leaves exactly one marker of its operation in all daily notes; a refused one changes nothing |
| NoteVault.AppendOnceFrame | core/append_once.go:83-152 | markers of other operations are never touched |
| NoteVault.AppendOnceLogged | core/append_once.go:83-152 | it writes exactly when the operation is not recorded yet |
| NoteVault.OperationAlphabet | core/append_once.go:17-19 | an id is 1 to 128 letters, figures, underscores, dots, colons and dashes, no more and no less |
| NoteVault.AppendOnceAnswers | core/append_once.go:83-187 | rejected exactly for a text that names no day, an id that is none or a text with the start of a marker; else done exactly when every marker line of its operation in a daily note is its own |
| NoteVault.AppendOnceWrites | core/append_once.go:83-152 | an append no daily note holds succeeds: its note, made if missing, ends in text and marker, no other note changes |
| NoteVault.AppendPathOnceEffect | core/append_path_once.go:18-77 | the same within one destination |
| NoteVault.AppendPathOnceFrame | core/append_path_once.go:18-77 | and leaves other operations alone |
| NoteVault.AppendPathOnceLogged | core/append_path_once.go:18-77 | and writes exactly when not recorded yet |
| NoteVault.AppendPathOnceAnswers | core/append_path_once.go:18-77 | when it is rejected, does not find its note, is done or conflicts, exactly |
| NoteVault.AppendPathOnceWrites | core/append_path_once.go:18-77 | an append the note does not hold succeeds: the note ends in text and marker |
| NoteVault.RetryChangesNothing | core/append_once.go:83-152 | an identical retry changes nothing, whatever the notes went through meanwhile |
| NoteVault.ReuseRefused | core/append_once.go:154-187 | the same id with another date or text is refused and changes nothing |
| NoteLocks.StepIsAtomic | core/append_once.go:34-62 | each action of an interleaved writer changes the notes as its commit, if any, would at once |
| NoteLocks.RunsAreSerial | core/append_once.go:83-187 | in every interleaved run no dated operation has two marker lines, and the notes are those of the commits one after the other, so no update is lost |
| NoteLocks.AnswersAreSerial | core/append_once.go:83-187 | a writer that finishes got the answer of its operation run alone at that moment |
| NoteStore.Store.EnsureNote | core/stores.go:157-175 | makes a missing daily note from the template, and nothing else; it may fail before or behind that |
| NoteStore.Store.AppendToFile | core/stores.go:278-292 | two writes, of which either may fail: the whole append, its newline only, or nothing |
| NoteStore.Store.AppendToNote | core/stores.go:177-197 | the note, made if missing, with the text appended; after a failure missing still, as made, or with its last line ended |
| NoteStore.Store.AppendByPath | core/stores.go:199-223 | the same for an existing note of the vault |
| NoteStore.Store.ScanNote | core/append_once.go:154-187 | whether the marker lines of one note allow the append and hold its marker |
| NoteStore.Store.FindAppendOperation | core/append_once.go:154-187 | the scan of all daily notes agrees with the specification, in any listing order |
| NoteStore.Store.AppendToNoteOnce | core/append_once.go:83-152 | the new files and the answer are those of the atomic operation, unless a missing note cannot be made: then it is missing still, or made |
| NoteStore.Store.AppendByPathOnce | core/append_path_once.go:18-77 | as above, by path |
| NoteStore.Store.UpdateRating | core/stores.go:357-391 | reads, edits and replaces one note; success exactly when the note exists and the edit is accepted |
| NoteStore.Store.SetTaskStatus | core/stores.go:443-466 | as above |
| NoteStore.Store.ToggleTask | core/stores.go:401-441 | as above; a regular pending task is then completed, a completed one rejected, a rejected one pending, no other task changes, and it can be toggled again |
| NoteStore.Store.AddNewTask | core/stores.go:468-491 | as above |
| NoteStore.ThreeToggles | core/stores.go:427-434 | a regular task toggled three times leaves the first list of tasks |
| NoteStore.EditsKeepMarkers | core/stores.go:157-491 | every operation of the store, an append cut short included, keeps the markers of all operations but its own and leaves all marker lines well formed |
| NoteStore.AppendIsTwoEdits | core/stores.go:278-292 | the two writes of a plain append are two edits of the note, the first ending its last line |
| NoteStore.EditsAreJobs | core/stores.go:357-491 | the store's edits meet what the interleaving theorem asks of edits |
| Sections.SplitShape | core/features/tasks.go:40-60 | the parts of a text at `---` hold no delimiter, not even across a joint, and join to the text |
| Sections.SplitOfJoin | core/features/tasks.go:40-60 | and are the only such list |
| Sections.LinesGlue | core/features/tasks.go:40-60 | the lines of a concatenation, the two decompositions' common ground |
| MarkedText.RewriteKeepsMarked | core/features/rating.go:12-84 | rewriting the text between two delimiters keeps the note's marker lines if it keeps that text's |
| MarkedText.KeyedAppendMarked | core/append_once.go:147-151 | a keyed append puts its marker behind the others and keeps the note well formed |
| Rating.RatingReadBack | core/features/rating.go:12-139 | accepted exactly with two delimiters, and then the rating read is the one written |
| Rating.LastRatingWins | core/features/rating.go:12-84 | rating twice is rating once with the later value |
| Rating.FrontStopsAtTasks | core/features/rating.go:29-58 | front matter ends at the first line that starts a task when a section follows, and else with the part |
| Rating.RatingKeepsMarkers | core/features/rating.go:12-84 | every marker line survives, in order |
| Rating.UpdateRating | core/features/rating.go:12-84 | the loops compute the specified text |
| Rating.GetRating | core/features/rating.go:86-139 | the loops compute the specified value |
| TaskLines.SetRegular | core/features/tasks.go:120-176 | on a line with one checkbox and at most a trailing tag: refused exactly when the status is set already, else mark and tag change and nothing else |
| TaskLines.TaskLineForm | core/features/tasks.go:62-98 | every task line is blanks, a checkbox, a rest |
| Tasks.LineNumberNames | core/features/tasks.go:48-98 | a task's line number names the line of the note that holds it, or what stands between delimiters on it |
| Tasks.TaskRewritten | core/features/tasks.go:40-100 | another task line in a task's place changes that task only |
| Tasks.StatusFrame | core/features/tasks.go:102-176 | refused exactly when the box has that status; else the same tasks are read back with only this one's status changed |
| TaskCycle.TurnedOn | core/stores.go:427-434 | on a line with one checkbox and at most a trailing tag the status that follows the present one is accepted, changes that task only, and leaves such a line |
| TaskCycle.MarkMeans | core/features/tasks.go:62-98 | a question mark or a blank is pending, an x completed, a dash rejected |
| TaskCycle.StatusWrites | core/features/tasks.go:119-172 | the line each status writes, the completion day included |
| TaskAdding.AddedTask | core/features/tasks.go:178-211 | a text is read back as one more pending task behind the others, which stay, exactly when it is trimmed, one line, without delimiter or tag, and does not end in a dash directly in front of the closing delimiter |
| TaskAdding.AddedTaskCut | core/features/tasks.go:178-211 | in that corner it is read back without its final dashes |
| TaskAdding.TasksArePlain | core/features/tasks.go:40-100 | every text read is trimmed, one line, without delimiter or tag |
| TaskAdding.AddedLine | core/features/tasks.go:178-211 | the note gains one line and keeps all others, in order |
| TaskAdding.OtherLinesKept | core/features/tasks.go:192-206 | this holds exactly when the section holds a task or starts on a fresh line |
| TaskAdding.ParseTasks | core/features/tasks.go:40-100 | the loop computes the specified tasks |
| TaskAdding.SetTaskStatusContent | core/features/tasks.go:102-176 | computes the specified text, from line numbers |
| TaskAdding.AddTaskContent | core/features/tasks.go:178-211 | computes the specified text |
| TaskAdding.InsertTask | core/features/tasks.go:184-206 | the insertion point is behind the last task line |
| NoteEdits.RatingKeepsTasks | core/features/tasks.go:40-100 | a rating leaves texts, states and positions of all tasks |
| NoteEdits.StatusKeepsMarkers | core/features/tasks.go:102-176 | a status keeps the marker lines exactly when it leaves the task line's tag alone, or taking the tag out of that line brings no prefix about |
| NoteEdits.RegularStaysBare | core/features/tasks.go:102-176 | on a line with one checkbox and at most a trailing tag it never does |
| StatusPrefix.SetLineBare | core/features/tasks.go:119-172 | of all a status does to a line (marks, tag, spaces, new tag) only taking the tag out can bring the prefix about |
| SampleNotes.TagRemovalCanExpose | core/features/tasks.go:134-137 | a line on which it does |
| SampleNotes.StatusCanExpose | core/features/tasks.go:102-176 | a whole well-formed note whose marker lines a status changes |
| SampleNotes.TaskCanSplit | core/features/tasks.go:201-207 | a note on which every new task splits a line |
| NoteEdits.AddTaskKeepsMarkers | core/features/tasks.go:178-211 | a new task, of several lines too, keeps all marker lines in order |
| Calendar.NumberOrder | notifications/scheduler.go:35-114 | day numbers order dates as calendars do, and are injective |
| Calendar.DateOf | notifications/scheduler.go:35-114 | every day number is a valid date's |
| Calendar.DateOfNumber | notifications/scheduler.go:35-114 | and the date's own |
| Calendar.GoDayOfDate | notifications/scheduler.go:116-125 | time.Date on a valid date is that date |
| Calendar.LastDayOfMonth | notifications/scheduler.go:116-125 | day zero of the next month is the last day of this one |
| Calendar.NoteDates | core/server.go:192-198 | a text names a note exactly when it is a day that exists, as two figures, an English month and four figures |
| Scheduler.SafeDate | notifications/scheduler.go:116-125 | nil exactly for days the month does not have |
| Scheduler.LongMonthSoon | notifications/scheduler.go:72-89 | of two months in a row one has 31 days, so the month scan suffices |
| Scheduler.LeapSoon | notifications/scheduler.go:91-101 | leap years are at most eight years apart across centuries, so the year scan suffices |
| Scheduler.WeekdayByAnchor | notifications/scheduler.go:62-63 | the weekday of a date, Monday being 0, is that counted from Thursday, 1 January 1970 |
| Scheduler.NextIsFirst | notifications/scheduler.go:35-114 | the next occurrence is, in UTC, the first instant after of a date the schedule names, at its clock time or nine o'clock, and there is none only if no date is so named |
| Scheduler.NextDaily | notifications/scheduler.go:48-54 | today's clock time or tomorrow's is the least occurrence strictly after |
| Scheduler.NextInterval | notifications/scheduler.go:103-110 | today's clock time if still to come, else one interval later |
| Scheduler.NextWeekly | notifications/scheduler.go:56-70 | the first date with a named weekday, counted from 1 January 1970, whose clock time is strictly after; none exactly when no weekday is named |
| Scheduler.NextMonthly | notifications/scheduler.go:72-89 | as above, the 31st included; none exactly when no month has the day |
| Scheduler.NextYearly | notifications/scheduler.go:91-101 | as above, 29 February included |
| Scheduler.ComputeNextFire | notifications/scheduler.go:35-114 | the least local occurrence strictly after, for daily, weekly, monthly and yearly schedules, by the calendar and in UTC; an interval schedule fires at today's clock time or one interval later; once and unknown kinds never |
| Fusion.CandidateIsUnique | search/retrieval.go:22-45 | one candidate per chunk |
| Fusion.ScoreIs | search/retrieval.go:37 | a candidate scores the sum of 1/(61 + i) over the positions i of its chunk in each ranking |
| Fusion.LeaderIsBefore | search/retrieval.go:22-51 | a chunk that stands before another in every ranking that names the other is ranked before it |
| Fusion.AloneComesOut | search/retrieval.go:14-69 | a single ranking of distinct chunks within the cap comes out in its order, cut to the limit |
| Fusion.SortedUnique | search/retrieval.go:47-51 | the order is total: the same for every map iteration order |
| Fusion.GreedyIsBest | search/retrieval.go:53-67 | no selection within the caps scores more than the greedy one |
| Fusion.Add | search/retrieval.go:27-41 | the candidate map holds first hits and summed votes |
| Fusion.Rank | search/retrieval.go:43-51 | all candidates in order |
| Fusion.Diversify | search/retrieval.go:53-67 | the loop takes what the greedy specification takes |
| Fusion.FuseByChunkID | search/retrieval.go:14-69 | distinct chunks within both caps, of maximum total score, the same for every order of the candidate map; scores are those of the positions, who leads another stands before it or its note has its share, and a single ranking comes out as it is |
| Retention.IncrementalPruning | scripts/notes_backup.py:238-254 | pruning now and later keeps exactly what one later prune would, for any rules, also after a prune cut short |
| Retention.PruningIsIdempotent | scripts/notes_backup.py:238-254 | pruning twice is pruning once |
| Retention.PruningHistory | scripts/notes_backup.py:281-310 | the same after any history of pulls and prunes |
| Retention.DiskAfterPrune | scripts/notes_backup.py:306-310 | what is left is what one prune of all backups ever pulled would leave |
| Retention.RuleKeepsNewest | scripts/notes_backup.py:243-253 | a rule keeps the newest of a bucket while fewer than its limit are newer |
| Retention.RetainedByCalendar | scripts/notes_backup.py:238-254 | kept are the backups of the last two days, and the newest of each of the newest 7 days, 4 weeks from Monday and 12 months that have any |
| Retention.Retain | scripts/notes_backup.py:238-254 | the loops compute that set, from any directory order, which is the one the calendar gives |
| Retention.Prune | scripts/notes_backup.py:306-310 | the pruning loop leaves exactly that set |
| Chunker.SplitKeepsInk | search/chunker.go:116-145 | splitting a long text loses no visible character; pieces are non-empty, trimmed, within the limit |
| Chunker.NoteTheorem | search/chunker.go:41-101 | the chunks ChunkContent makes of a content are numbered, non-empty, within 1500 runes, under the headings that enclose their lines, and hold exactly the visible characters behind its front matter but for headings and lone `---` |
| Chunker.ChunkTheorem | search/chunker.go:41-101 | the same for any list of lines |
| Chunker.ChunksNumbered | search/chunker.go:41-101 | ords are 0 to n-1 |
| ChunkShapes.HeadingLine | search/chunker.go:103-112 | one to six hashes, a blank and a title are a heading of that level |
| ChunkShapes.HeadingShape | search/chunker.go:103-112 | and no other line is |
| ChunkShapes.TaskShape | search/chunker.go:158-166 | a task line is a dash, a blank and one character in brackets |
| ChunkShapes.CutAt | search/chunker.go:116-145 | a long text is cut behind the last break of the second half of what fits, inside a word only when there is none |
| ChunkShapes.LimitOfChunks | search/chunker.go:116-145 | chunks hold at most 1500 characters and a text of no more is not cut |
| ChunkShapes.FrontMatterTaken | search/document.go:54-81 | front matter from a first line of three dashes to the next of three dashes or dots is taken off |
| ChunkOrigins.OriginsExact | search/chunker.go:41-101 | chunks come from exactly the task lines and the first lines of paragraphs that are kept |
| ChunkEnds.LosesExactly | search/chunker.go:41-101 | leaving out the first lines of a body loses no text exactly when each of them is blank, a heading or a lone `---` |
| ChunkEnds.ChunksEqual | search/chunker.go:41-101 | and then makes no difference to the chunks exactly when none of them stands under one of these headings |
| Chunker.SplitLongText | search/chunker.go:116-145 | the shrinking loop computes the specified pieces |
| Chunker.ChunkContent | search/chunker.go:41-101 | the line loop computes the specified chunks |
| IndexTables.DisagreeingIsSelected | search/db.go:789-819 | at any point a note whose rows are not those that reindexing it gives is one the backfill selects |
| IndexTables.DerivedIsChunks | search/indexer.go:324-366 | these are the chunks of the note's body, stripped of front matter once more, one row each |
| FrontMatter.StrippedOnce | search/chunker.go:150-156 | when the second strip takes no line, they are the chunks of the note's content |
| FrontMatter.InkExactly | search/document.go:27-49 | the rows hold the text that chunks of the content do exactly when each line the second strip takes is blank, a heading or a lone `---` |
| FrontMatter.RowsExactly | search/indexer.go:324-326 | they are the chunks of the content exactly when moreover no chunk stands under a heading taken |
| FrontMatter.CurrentExactly | search/db.go:412-426 | so a note marked current has the chunks of its content as rows exactly then |
| FrontMatter.TextCanBeLost | search/indexer.go:324-326 | a note without front matter, marked current, with text that is in no row |
| IndexTables.NeedsExactly | search/db.go:821-856 | of notes with a sound marker and current chunks the embedding backfill passes over exactly those marked for the model, with its vector of what each row says now |
| IndexTables.InputLines | search/document.go:184-207 | the input of an embedding, line by line |
| IndexTables.TimesAgree | search/indexer.go:262-271 | when a file counts as unchanged: equal size, and the row's microseconds begin the file's nanoseconds |
| IndexTables.MarkerOutlives | search/indexer.go:346-365 | after a change of the chunker, a stop between the rows and the clearing of the marker leaves it standing; wrongly exactly when some row's input changed, unnoticed exactly when no row is new |
| IndexTables.OldVectorsCanPass | search/indexer.go:346-365 | from some earlier state of any note with a chunk this goes unnoticed |
| IndexTables.ReindexKeeps | search/indexer.go:324-366 | rewriting the rows of a note keeps markers of embeddings sound when it is complete or the note was not marked |
| Indexer.Index.UpsertNote | search/db.go:344-389 | new content zeroes both markers in the same statement; failure is before or after the whole of it |
| Indexer.Index.TouchNoteMeta | search/db.go:461-474 | metadata only |
| Indexer.Index.DeleteNote | search/db.go:537-545 | one note, all or nothing |
| Indexer.Index.UpsertChunk | search/db.go:1065-1086 | one row of a note that is not marked current |
| Indexer.Index.DeleteChunks | search/db.go:1106-1121 | only the named rows of one note, with their embeddings |
| Indexer.Index.MarkNoteChunksCurrent | search/db.go:412-426 | marks only rows that are those derived from the content |
| Indexer.Index.ReindexChunks | search/indexer.go:324-366 | success means the rows derived from the content and a current marker, and the marker of embeddings cleared exactly when some row changed; failure changes this note's rows and markers only, and marks nothing anew |
| Indexer.Index.InvalidateNoteEmbeddings | search/db.go:445-459 | clears one marker, all or nothing |
| Indexer.Index.UpsertChunkEmbedding | search/db.go:1088-1104 | one embedding of an existing chunk row |
| Indexer.Index.MarkNoteEmbeddingsCurrent | search/db.go:428-443 | sets one marker to this version and model |
| Indexer.Index.ReindexEmbeddings | search/indexer.go:368-430 | success means every row has the model's vector of what it says now, and the note is marked; failure leaves old vectors or such, and marks only with all of them |
| Indexer.Pending | search/indexer.go:375-393 | exactly the rows whose vector is missing or out of date, or all if forced |
| Indexer.NextBatch | search/indexer.go:394-410 | as many inputs as eight and the limit of runes allow, but at least one |
| Indexer.Index.BackfillEmbeddings | search/indexer.go:488-532 | without failures no note it comes to needs embeddings any more; only vectors and their markers change |
| Indexer.Index.NotesNeedingChunks | search/db.go:789-819 | a page of stale notes above an id, by id, without gaps |
| Indexer.Index.BackfillChunks | search/indexer.go:440-486 | without failures no stale note is left; contents never change |
| Indexer.Index.SyncFile | search/indexer.go:256-322 | only this path changes, and on success holds the file's content or was skipped on equal size and time; new content is then chunked and, where embeddings are made, embedded; markers of embeddings stay sound however it ends |
| Indexer.Index.SyncFiles | search/indexer.go:201-216 | the same over a listing; what is left of the known rows is what the listing has not |
| Indexer.Index.SyncOnce | search/indexer.go:73-177 | an error-free pass leaves exactly the listed paths with their contents; walk errors delete nothing; no listed path is deleted; an empty listing purges; markers of embeddings stay sound however the pass ends, after a change of the chunker when no note was skipped |
| ReorderBuffer.Conserved | frontends/telegram/tghandlers/voice.go:75-115 | in every history each registration is released or held, and the entries in excess of the results are those of repeated registrations |
| ReorderBuffer.EveryRun | frontends/telegram/tghandlers/voice.go:75-115 | while no registration finds its id held: ids sorted and those of the results, the first one pending, only completed ids released |
| ReorderBuffer.FreshIdsDoNotRepeat | frontends/telegram/tghandlers/voice.go:75-115 | with fresh ids no registration does |
| ReorderBuffer.ReleasedOnce | frontends/telegram/tghandlers/voice.go:75-115 | with fresh ids each is released at most once, and is then no longer held |
| ReorderBuffer.DrainsExactly | frontends/telegram/tghandlers/voice.go:75-115 | once all registrations are completed the buffer is empty exactly when none found its id held |
| ReorderBuffer.NeverEmptyAgain | frontends/telegram/tghandlers/voice.go:84-92 | after one that did, the buffer is never empty again |
| ReorderBuffer.NoOvertaking | frontends/telegram/tghandlers/voice.go:96-115 | nothing is released before a smaller id that stays held |
| ReorderBuffer.ReleasedInOrder | frontends/telegram/tghandlers/voice.go:75-115 | ids registered in increasing order are released in increasing order |
| ReorderBuffer.RepeatedIdSticks | frontends/telegram/tghandlers/voice.go:84-92 | an id registered twice, then completed, leaves an entry without a result in front |
| ReorderBuffer.StuckUntilRegistration | frontends/telegram/tghandlers/voice.go:103-114 | such an entry in front stops all releases until another registration |
| ReorderBuffer.ReadyResultsAt | frontends/telegram/tghandlers/voice.go:103-114 | the results returned are those of the released ids, in order |
| ReorderBuffer.DeliversWhatWasSaid | frontends/telegram/tghandlers/voice.go:96-115 | with fresh ids the results a completion releases carry the text or failure each id was completed with, in the order of the ids |
| ReorderBuffer.VoiceReorderBuffer.SearchInts | frontends/telegram/tghandlers/voice.go:87 | binary search finds the number of smaller ids |
| ReorderBuffer.VoiceReorderBuffer.Register | frontends/telegram/tghandlers/voice.go:84-92 | inserts in order, for repeated ids too |
| ReorderBuffer.VoiceReorderBuffer.Complete | frontends/telegram/tghandlers/voice.go:96-115 | drains the done results from the front and returns them |
| Duration.FormatErrors | internal/duration/duration.go:58-105 | format errors are for exactly the texts that are neither a number nor spelled by tokens |
| Duration.SpelledMeans | internal/duration/duration.go:75-126 | tokens within range that fit an int parse to their sum of minutes; out of range is an overflow |
| Duration.AcceptedMeans | internal/duration/duration.go:121-125 | an accepted duration is what was typed exactly when that fits an int |
| Duration.CarriedInRange | internal/duration/duration.go:156-176 | carrying keeps the total and puts every unit in range |
| Duration.RenderedParses | internal/duration/duration.go:178-187 | values in range, written out, parse back to their total |
| Duration.AcceptedCanWrap | internal/duration/duration.go:121-125 | an accepted duration that is not what was typed |
| Duration.OverflowCanClamp | internal/duration/duration.go:89-119 | an overflow whose suggestion is not what was typed |
| Duration.SuggestionParses | internal/duration/duration.go:107-119 | the suggestion parses to exactly the minutes typed if and only if these fit an int |
| Duration.LabelAddsUp | internal/duration/duration.go:15-42 | a label's parts add up to the minutes |
| Duration.LabelReadsBack | internal/duration/duration.go:15-42 | the label's words read back to the minutes, for every int |
| Duration.LabelSays | internal/duration/duration.go:15-42 | the label in words: months, weeks, days, hours and minutes, each below what the next holds, nothing left out but what is nothing |
| Duration.BareNumber | internal/duration/duration.go:64-70 | a bare number is minutes, blanks around it or not, and 0 or less is refused |
| Duration.OneUnit | internal/duration/duration.go:75-126 | what a number with one unit means, months of 30 days included |
| Duration.ReadUnits | internal/duration/duration.go:75-101 | the index-driven loop computes the scan |
| Duration.Parse | internal/duration/duration.go:58-126 | computes the specified result or refusal |
| Duration.Suggest | internal/duration/duration.go:156-188 | computes the specified suggestion |
| Duration.MinutesToLabel | internal/duration/duration.go:15-42 | computes the specified label |
| Masking.LineShowsNone | internal/applog/applog.go:189-195 | a masked line shows no secret, when none starts or ends with an asterisk or holds a mask |
| Masking.OutputShowsNone | internal/applog/applog.go:155-170 | nor do the masked complete lines of a text show a secret that no line break splits |
| Masking.NeverShownExactly | internal/applog/applog.go:155-170 | for a single secret these conditions are exact: otherwise the masked lines of some text show it |
| MaskHistories.OrderlyShowsNone | internal/applog/applog.go:155-187 | nor does the output of a history of writes and syncs, when none fails and syncs come between lines |
| MaskHistories.HiddenOrderlyExactly | internal/applog/applog.go:155-187 | over such histories the same conditions are exact |
| MaskHistories.SyncShows | internal/applog/applog.go:174-187 | a Sync within a line shows any one-line secret of two characters and more |
| MaskHistories.HiddenAlwaysExactly | internal/applog/applog.go:155-187 | over all histories, syncs within lines and failures included, exactly the secrets of one character other than the asterisk are never shown |
| MaskWriter.OrderlyIsMasked | internal/applog/applog.go:155-187 | in an orderly history the output is the masked complete lines of all bytes, and the buffer the unfinished one |
| MaskWriter.CutsDoNotMatter | internal/applog/applog.go:155-170 | however bytes are cut into writes, the output is the masked complete lines and the buffer the unfinished one |
| MaskWriter.Writer.Write | internal/applog/applog.go:155-170 | what was written in full leaves the buffer and nothing else does, also when the writer below fails in the middle of a line |
| MaskWriter.Writer.Sync | internal/applog/applog.go:174-187 | flushes the unfinished line masked or keeps it, and then passes the sync on where the writer below supports it |
| MaskWriter.KeepNonEmpty | internal/applog/applog.go:112-120 | exactly the non-empty secrets |

## Left out

- VoiceWorker.RunVoiceJob: sees one clock value per pass and the calls of one worker; time passing and other workers in between are in VoiceProtocol.
- VoiceWorker.VoiceStep: progress texts, LastStatus, trace context, time-outs and the paging of long transcripts are not modelled; a final delivery is one edit with its reply.
- VoiceWorker.Store.Claim: claims are one at a time; the skipping of rows that another claim holds locked is not modelled (in VoiceProtocol any due row may be claimed).
- VoiceProgress.ClosedByTheEighth: the passes over the job follow one another; what other workers do in between is in VoiceProtocol, which promises no progress.
- VoiceResults.TranscriptIsStored: what the backend answers is taken as given, word for word; that it transcribes well is outside.
- VoiceGuarantees.ExactlyOnce: the backend's deduplication by request id is outside; uploads are a set.
- VoiceGuarantees.AppendsInMessageOrder: for jobs accepted in message order; polling accepts in update order, and the two agree only if updates of a chat come in message order.
- NoteVault.AppendPathOnceEffect: one marker per destination, not across notes: the code scopes the ids of keyed appends by path to one note.
- NoteStore.Store.AppendToFile: each of the two writes happens as a whole or not at all.
- NoteStore.Store.AppendToNoteOnce: parsing the date is a parameter that says whether it is a canonical note date.
- NoteStore.Store.AppendByPathOnce: path resolution and confinement are parameters.
- NoteLocks.RunsAreSerial: covers operations used with dates only; durability below rename, lock files left by the operating system and edits by other programs are outside.
- Tasks.StatusFrame: for lines with one checkbox and at most a trailing tag; other lines are rewritten more than once by the code.
- Scheduler.ComputeNextFire: parameters are given decoded, and clock values out of range are not promised anything; the reminder rows that tick updates are not modelled.
- Fusion.FuseByChunkID: scores are reals, so float rounding and the ties it makes are not modelled.
- Chunker.ChunkTheorem: characters are code points; the heading and task-line syntax is the code's.
- Indexer.Index.SyncOnce: files do not change while a pass runs, and one process writes the table.
- Indexer.Index.SyncFile: the hash comparison is content equality.
- Indexer.Index.BackfillEmbeddings: which notes the pages hold, and how many a pass may take, is a parameter; profiles and their embeddings are not modelled.
- Indexer.Index.BackfillChunks: the parsed columns that UpdateNoteParsed writes are not modelled.
- Indexer.Index.ReindexEmbeddings: what a note says of itself in an embedding's input is a parameter, as a function of path and content; a vector stands for its input and model.
- ReorderBuffer.ReleasedInOrder: release order only; the older in-memory voice path delivers after the buffer's lock is given up.
- MaskWriter.CutsDoNotMatter: for writes without a failure or a sync in between (MaskWriter.OrderlyIsMasked has syncs between lines).
- Duration.FormatErrors: message texts and the description of an overflow are not modelled.
- FuseManyByNoteID: the accumulation and sort of FuseByChunkID again, without the cap.
- Telegram, gRPC, Kafka, database and HTTP plumbing, keyboards and message texts, prompts, profiles, sessions and dashboards: I/O, or easy.
