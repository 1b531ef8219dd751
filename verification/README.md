# Interview agent and report worker: a verified model

This project models the parts of the repository where several activities race over shared state, and
the algorithms whose results other parts rely on, and proves what they promise.

**The interview agent** (`agent/src/interview`). An unbounded number of coroutines work on one
append-only conversation log: turns are decided by a language model, spoken, retried and committed;
the candidate leaves and comes back; closings are requested from five places; the process dies and a
new job rebuilds the log from a Redis copy that may have gaps. `TurnProtocol` is the protocol as a
transition system: one step is the code between two suspension points, and whatever the models, the
speech engine, the clock and the room answer is an argument of the step. `TurnInvariant` and
`TurnSafety` hold the invariant and the proof that every step keeps it; `TurnTheorems`, `TurnEnding`
and `FreshSession` state what follows for every session, on whatever log it starts, and `Lives` what
follows over any number of crashes and restarts. `TurnWords` says that every utterance of a log was
really said, in those words, and `TurnProgress` that what should be said is said. `Pipeline` is the
source's class, whose methods do to its fields exactly what the protocol says. `EndStates`,
`Presence`, `EndSequences` (with the laws of its runs in `EndLaws`), `RedisSink` and `Restore` are the
objects around it, and `Context` is what the orchestrator is shown.

**The report worker** (`worker/src/report`). Text processors, audio processors and a grace timer race
on one report row with conditional updates, redelivery and crashes (`ReportRepository`,
`ReportProtocol`, `ReportPipeline`, `Redelivery`). The audio analysis is `Resampling`,
`Segmentation` and `Delivery`; reading and grouping transcripts is `Transcripts`, and
`TranscriptContract` connects it with the agent's logs.

**The resume worker** (`worker/src/analysis`). Any number of processors restart, overtake each other
and die over one status row and one chunk table (`ResumeIndex`, `ResumePipeline`), and
`ResumeProgress` says what an undisturbed one achieves and where the index comes from. `Chunking` is
the text packing in between, and `ChunkContents` says what of a resume is in its index.

## Assumptions

- Agent: taking an uncontended commit lock does not suspend, so the end of a playout and the commit
  after it are one step. `speak_initial` starts only on an empty log and at most once for a value of
  the turn counter. The speech lock may go to any waiter (the source serves them in order).
- Agent: the wall clock does not run backwards; a reported playout start is not after the present.
  Whether the candidate is in the room is an argument of each step. The hard time limit is a closing
  request like any other. A restored session enters its restored phase before any other event; one
  whose closing was already spoken gets no pipeline.
- Agent: marker and cleanup callbacks are injected. The orchestrator's reason is already stripped. A
  JSON value of another type than written (a number as content) does not parse.
- Presence: the store callbacks are injected, and no deadline is stored when the monitor is armed.
- Report: a SQL statement, and a `conn.transaction()` block, is one atomic step; whether audio
  analysis is switched on does not change during a run; nobody else writes the rows.
- Resume: the backend makes no transition during a run.
- Audio: samples, probabilities, rates and penalties are reals; positions and scores are integers. A
  pushed block is never empty, as the reading loop guarantees.
- Restoring: the transcript writer of a life is handed exactly the utterances that life commits, in
  order, on top of the list the life was rebuilt from (then `Lives.WriterAppends`), and the clock of a
  life starts no earlier than that of the life before it stopped.

## Properties that hold only under a condition

- Taking an answer fails on exactly those rebuilt logs that kept numbers but no question
  (`TurnTheorems.AnswerRefusedIff`, with `TurnTheorems.AnswerRefusedExample`).
- An utterance of a waiting candidate is taken as the final answer exactly when the largest number
  belongs to a final question (`TurnEnding.FinalAnswerTakenIff`). That is so on every log of a real
  session and on what gaps leave of one (`TurnEnding.FinalAnswerIsTaken`), not on a polluted one
  (`TurnEnding.FinalAnswerRefusedExample`).
- The structure of the ending covers the whole log where the session starts on the log of a real
  session or on what gaps leave of one; on any other rebuilt log it covers what the session adds
  (`TurnTheorems.EndsOnce`).
- The orchestrator's context cannot be built on exactly those logs whose last branch has no question
  and does not fit as a whole (`Context.OrchestratorContext`, with
  `ContextOnSessions.RebuiltContextExample`); no fresh session has such a log
  (`ContextOnSessions.FreshContextIsFound`).
- The worker's topics are the log's branches by ascending root, and exchanges by ascending number, over
  every lineage of copies (`TranscriptContract.WorkerSeesBranches`). They stand in the very order of
  the log exactly when its branches and exchanges come up in ascending order
  (`TranscriptContract.OrdersAgreeIff`). That is so as long as what was once read back from a copy is not lost later, which writers that only
  append guarantee (`TranscriptContract.WorkerSeesLogOrder`). An answer whose question a gap took is
  an exchange with an empty question (`TranscriptContract.OrphanIsEvaluated`).
- The overall score is the mean of the axes the row holds unless text results were stored after the
  end (`ReportProtocol.CompletedScoreIsMean`, with `ReportProtocol.LateTextRewritesAxes`).
- Text and audio may end in either order while audio is awaited; with audio switched off the orders
  agree exactly when audio had nothing to add (`ReportRepository.StagesCommuteWithoutAudio`).
- The two rounding rules of the worker agree exactly away from negative ties
  (`ReportRepository.RoundingsAgree`).

## Model

| member | source | states |
|---|---|---|
| Utterances.Make | agent/src/interview/conversation_log.py:66-117 | an utterance is constructed exactly when it breaks no schema rule, and is then unchanged |
| Utterances.ValidMeans | agent/src/interview/conversation_log.py:66-117 | the rules the constructor checks one after the other accept exactly the schema of closings, answers and each kind of question |
| Utterances.RoundTrip | agent/src/interview/conversation_log.py:119-164 | every valid utterance survives serialisation and parsing unchanged but for its time, which is cut to whole seconds |
| Utterances.ReadsWhatIsSpelled | agent/src/interview/conversation_log.py:119-142 | a dictionary is read as an utterance exactly if that one is valid and the dictionary spells it out under every key, where null and an empty name say nothing |
| Conversation.ConversationLog.AppendQuestion | agent/src/interview/conversation_log.py:180-216 | a question is appended only under the next number, and a follow-up only to the current branch's existing root; otherwise the log stays as it was |
| Conversation.ConversationLog.AppendClosing | agent/src/interview/conversation_log.py:218-235 | a closing is appended without number or branch |
| Conversation.ConversationLog.AppendAnswer | agent/src/interview/conversation_log.py:237-250 | an answer inherits number and branch of the last question; without one it is refused |
| Conversation.QuestionAcceptedIff | agent/src/interview/conversation_log.py:180-216 | a question is accepted exactly if it obeys the schema, carries the number after the floor or the last question, and, following up, hangs on the existing root of the branch under way; it enters as it was handed over |
| Conversation.AnswerAcceptedIff | agent/src/interview/conversation_log.py:237-250 | without a question there is nothing to answer; else any answer with content is accepted, under the number and in the branch of the last question |
| Conversation.ConversationLog.FindLastQuestion | agent/src/interview/conversation_log.py:342-346 | the reverse loop finds the last numbered question |
| Conversation.ConversationLog.LastQuestionNumber | agent/src/interview/conversation_log.py:254-256 | new numbers count from the larger of the floor and the last question's number |
| Conversation.ConversationLog.CollectBranchRoots | agent/src/interview/conversation_log.py:272-279 | the loop collects every parent once, in order of first appearance |
| Conversation.WellFormedMeans | agent/src/interview/conversation_log.py:167-250 | the recursive structure of a log in pointwise form: one closing at the very end, one final question followed by no question and at most one answer, growing numbers |
| EndStates.EndState.TryAdvance | agent/src/interview/end_state.py:52-69 | the transition refuses misuse, ignores repeated and backward requests, and fixes the cause on entering CLOSING |
| EndStates.RequestIsHonoured | agent/src/interview/end_state.py:52-69 | a request is refused exactly for misuse, and changes nothing; any other leaves the state at least as far along as it asked, and wins exactly if it had to move |
| EndStates.EachPhaseWonOnce | agent/src/interview/end_state.py:52-69 | in every sequence of requests each phase is won at most once, the phase never falls, and a fixed cause stays |
| EndStates.FirstCauseStands | agent/src/interview/end_state.py:52-69 | whatever is requested afterwards, the cause is that of the first request that won CLOSING |
| Orchestrator.DecideKeepsContract | agent/src/interview/orchestrator.py:119-224 | whatever the model answers, a decision has a reason exactly when the orchestrator judged, opens no topic in wrap-up, and refers only to an existing question of another branch |
| Orchestrator.DecideFollowsReply | agent/src/interview/orchestrator.py:153-214 | a usable reply is followed with its reason, and only an unfounded contradiction is turned into a deepening question; every other reply gets the safe direction |
| Orchestrator.ContradictionIsKept | agent/src/interview/orchestrator.py:197-224 | a contradiction that points at a question of another branch is asked as one, about that question |
| TurnInvariant.PlannedQuestionAccepted | agent/src/interview/turn_pipeline.py:509-538 | on any log of valid utterances a question decided on the whole log is accepted under the next number, which exceeds every number in it |
| TurnInvariant.AnswerAccepted | agent/src/interview/conversation_log.py:237-250 | an answer is accepted exactly when a question is left to answer |
| TurnSafety.SpokenQuestionIsAlone | agent/src/interview/turn_pipeline.py:491-509 | while a question of the current turn is spoken, no other turn is current, and the log is still the one it was decided on |
| TurnSafety.StepKeeps | agent/src/interview/turn_pipeline.py:108-595 | every step of every coroutine keeps the invariant |
| TurnSafety.RunKeeps | agent/src/interview/turn_pipeline.py:108-595 | every interleaving of any length keeps the invariant |
| TurnFrame.StepFollows | agent/src/interview/turn_pipeline.py:108-595 | a step appends at most one utterance, never rewrites the log, and moves phase, cause and clock only forward |
| TurnTheorems.DecidedOnItsPrefix | agent/src/interview/turn_pipeline.py:335-466 | in every interleaving, on whatever log the session starts, each question it commits was decided on exactly the log before it, lawfully |
| TurnWords.StepSays | agent/src/interview/turn_pipeline.py:108-538 | whatever a step adds to the log was said in it: a question in the words, time, kind, reason, type and reference of the playout that ended well, a closing in its words with the reason it was begun for, an answer in the words of the turn |
| TurnWords.EverythingWasSaid | agent/src/interview/turn_pipeline.py:108-538 | over every session: each utterance it adds was said so by one event on exactly the log before it |
| TurnTheorems.AnyRebuiltLogIsStartable | agent/src/interview/conversation_log.py:349-370 | whatever items a copy holds, the rebuilt log has only valid utterances and counts from above all their numbers |
| TurnTheorems.NumberingNeverFails | agent/src/interview/turn_pipeline.py:450-464 | whatever log a session starts on, no append at a commit point is ever refused, and each number is one more than the largest the session has seen and exceeds every number before it |
| TurnTheorems.AnswerRefusedIff | agent/src/interview/turn_pipeline.py:151-168 | past the guard, taking an answer fails exactly when no question survived |
| TurnTheorems.AnswerRefusedExample | agent/src/interview/conversation_log.py:349-370 | a rebuilt log on which taking an answer fails |
| TurnTheorems.NoAnswerOnceClosing | agent/src/interview/turn_pipeline.py:119-126 | from CLOSING on no step adds an answer |
| TurnTheorems.EndsOnce | agent/src/interview/turn_pipeline.py:235-319 | every session, fresh or rebuilt, has at most one closing, at the end; one final question, last and answered at most once; one marker and one cleanup, with the cause that won; on a polluted log this is said of the part the session adds |
| TurnTheorems.NoSilentTurn | agent/src/interview/turn_pipeline.py:335-409 | while the interview runs, an answered turn has a live coroutine unless it lost its listener or the speech engine |
| TurnProgress.AnswerIsTakenIff | agent/src/interview/turn_pipeline.py:108-169 | a finished turn is taken as an answer exactly if the guards let it pass and a question is left, in its own words, and starts the next turn or the closing |
| TurnProgress.ReplyIsAsked | agent/src/interview/turn_pipeline.py:335-538 | an undisturbed turn asks what a usable reply says: its follow-up or topic, with its reason, type and reference, in the generated words; with a fallback wording a topic without a reason |
| TurnProgress.FinalIsAsked | agent/src/interview/turn_pipeline.py:418-466 | a reply for the last question is asked in its words and the answer is awaited |
| TurnProgress.EndBegins | agent/src/interview/turn_pipeline.py:335-349 | a reply that ends the interview begins the closing with its reason |
| TurnProgress.ForcedTopicIsAsked | agent/src/interview/turn_pipeline.py:367-399 | at the follow-up limit, on a lost root and before the first topic a topic is asked without the orchestrator |
| TurnProgress.LimitCanBeReached | agent/src/interview/turn_pipeline.py:374-399 | below the limit a usable follow-up reply adds one to the current branch |
| TurnProgress.OpeningIsAsked | agent/src/interview/turn_pipeline.py:323-331 | the opening of a fresh session becomes question 1 |
| TurnProgress.FailedPlayout | agent/src/interview/turn_pipeline.py:498-509 | a failed playout is retried once in its turn; a second failure ends the job or, for the final question, begins the closing |
| TurnProgress.UnheardIsDropped | agent/src/interview/turn_pipeline.py:509-520 | a question heard by nobody, or in a turn that is over, is not committed |
| TurnProgress.OverTurnIsDropped | agent/src/interview/turn_pipeline.py:176-181 | after a departure, an answer or the end of the pipeline no coroutine of an earlier turn adds to the log, and each ends with the await it is at |
| TurnProgress.ClosingIsSpoken | agent/src/interview/turn_pipeline.py:264-319 | a closing that was won is spoken and committed in the words chosen for it, unless its cause is silent, and the cleanup starts with the cause |
| TurnProgress.SilentCausesStaySilent | agent/src/interview/turn_pipeline.py:280-291 | no session that ran out of its reconnect window, or whose closing was heard before, adds a closing |
| TurnProgress.ClosedSaysNothing | agent/src/interview/turn_pipeline.py:584-595 | once the pipeline is closed no step adds to the log |
| TurnProgress.NoticeIsFollowed | agent/src/interview/turn_pipeline.py:197-212 | after the notice an open question is repeated word for word, an unanswered answer gets a turn |
| TurnProgress.FailedRepetition | agent/src/interview/turn_pipeline.py:214-231 | a repetition is retried once, a second failure ends the job |
| TurnProgress.CleanupEndsTheJob | agent/src/interview/turn_pipeline.py:310-321 | the cleanup ends the coroutine, and the job is shut down directly only if it raises |
| TurnTheorems.RecoveryRefinesLivePhase | agent/src/interview/restore.py:88-122 | from an intact copy a new job finds the phase the old one was in; gaps can only make it look less far along |
| TurnProgress.SessionGoesOn | agent/src/interview/restore.py:88-122 | a session on a well-formed log runs, awaits the final answer, begins the closing, or has nothing left to say, as the log shows |
| TurnTheorems.EveryLifeIsSound | agent/src/interview/restore.py:50-85 | over any number of crashes and lossy copies every life of a session keeps the structure of its log |
| Lives.EveryLifeIsTidy | agent/src/interview/conversation_log.py:237-250 | over any number of crashes and lossy copies, in every life each number stands for one branch and nothing said before an answer carries a later time |
| Lives.WriterAppends | agent/src/interview/redis_sink.py:51-103 | whatever the timing and the failures, the next life finds the list this one started on, followed by an ordered part of what it committed |
| Lives.AppendingIsLineage | agent/src/interview/restore.py:50-85 | lists left by such writers are copies with gaps of the log of the life before |
| Lives.EveryLifeRises | agent/src/interview/conversation_log.py:262-279 | while writers only append, numbers and branches first appear in ascending order in every life |
| TurnEnding.ClosingIsNeverLost | agent/src/interview/turn_pipeline.py:235-319 | a closing that was won stays in progress until it cleans up, with exactly one marker and one cleanup |
| TurnEnding.FinalAnswerTakenIff | agent/src/interview/turn_pipeline.py:155-166 | while the final answer is awaited, an utterance is committed as that answer and closes the interview exactly when the largest number belongs to a final question; otherwise nothing changes |
| TurnEnding.FinalAnswerIsTaken | agent/src/interview/turn_pipeline.py:155-166 | on the log of a real session, or what gaps leave of one, the final answer is always taken |
| TurnEnding.FinalAnswerRefusedExample | agent/src/interview/turn_pipeline.py:159-162 | a polluted log on which the final answer is turned away |
| FreshSession.FreshNumbers | agent/src/interview/turn_pipeline.py:521-538 | the questions of a fresh session are numbered 1, 2, 3, ... |
| FreshSession.FreshFollowUps | agent/src/interview/turn_pipeline.py:374-399 | no branch of a fresh session has more follow-ups than the limit, none hangs on the opening question, and a contradiction refers to an earlier question of another branch |
| FreshSession.FreshRooted | agent/src/interview/conversation_log.py:258-279 | in a fresh session the branch opened last is the current one |
| FreshSession.FreshRunTimely | agent/src/interview/turn_pipeline.py:151-168 | nothing said before an answer carries a later time than the answer |
| Pipeline.TurnPipeline.OnUserTurnCompleted | agent/src/interview/turn_pipeline.py:108-169 | the turn hook commits the answer and starts the next turn, or the closing, or ignores the turn, as the protocol says |
| Pipeline.TurnPipeline.InvalidateInflight | agent/src/interview/turn_pipeline.py:176-181 | a departure moves the turn counter and nothing else |
| Pipeline.TurnPipeline.ResumeAfterReconnect | agent/src/interview/turn_pipeline.py:183-196 | resuming starts unless the session is ending |
| Pipeline.TurnPipeline.StartClosing | agent/src/interview/turn_pipeline.py:235-246 | only the winner of the transition starts the closing |
| Pipeline.TurnPipeline.SpeakInitialQuestion | agent/src/interview/turn_pipeline.py:323-331 | the opening question goes to the speech lock like any other |
| Pipeline.TurnPipeline.Shut | agent/src/interview/turn_pipeline.py:584-595 | closing the pipeline invalidates the turn and cancels its own coroutines |
| Pipeline.TurnPipeline.RunStart | agent/src/interview/turn_pipeline.py:367-399 | the code decides first, where it must, without asking the orchestrator |
| Pipeline.TurnPipeline.RunJudged | agent/src/interview/turn_pipeline.py:396-409 | the orchestrator's answer, or the safe direction if the call raised |
| Pipeline.TurnPipeline.RunDecision | agent/src/interview/turn_pipeline.py:335-349 | what a decision leads to, unless the turn is stale |
| Pipeline.TurnPipeline.RunGenerated | agent/src/interview/turn_pipeline.py:349-365 | a generated wording becomes a follow-up only if it is no fallback |
| Pipeline.TurnPipeline.TakeSpeechLock | agent/src/interview/turn_pipeline.py:491-498 | a question waits for the speech lock and is dropped if it became stale meanwhile |
| Pipeline.TurnPipeline.PlayoutDone | agent/src/interview/turn_pipeline.py:498-509 | one retry, then the job ends, or for the final question the closing begins |
| Pipeline.TurnPipeline.CommitQuestion | agent/src/interview/turn_pipeline.py:439-466 | a question that was heard is committed, in the words it was spoken in (`TurnWords.StepSays`), under the next number; a final one moves the phase |
| Pipeline.TurnPipeline.ClosingBegins | agent/src/interview/turn_pipeline.py:264-279 | the marker is written with the cause that won |
| Pipeline.TurnPipeline.MarkerDone | agent/src/interview/turn_pipeline.py:280-291 | without a listener no closing is spoken |
| Pipeline.TurnPipeline.ClosingPlayoutDone | agent/src/interview/turn_pipeline.py:291-310 | a closing that was heard is committed, one that failed twice is not; cleanup follows in both cases |
| Pipeline.TurnPipeline.EnterCleaning | agent/src/interview/turn_pipeline.py:310-314 | the phase moves to CLEANING and the cleanup starts with the cause |
| Pipeline.TurnPipeline.NoticeDone | agent/src/interview/turn_pipeline.py:197-212 | after the notice an unanswered question is said again, an answer leads to the next turn |
| Pipeline.TurnPipeline.RespeakDone | agent/src/interview/turn_pipeline.py:214-231 | repeating a question commits nothing and is retried once |
| Pipeline.TurnPipeline.Wake | agent/src/interview/turn_pipeline.py:335-538 | the event loop's step on one coroutine is the protocol's step |
| Pipeline.TurnPipeline.HandleAll | agent/src/interview/turn_pipeline.py:55-595 | any interleaving leaves the object where the protocol ends, with the invariant |
| RedisSink.RedisTranscriptWriter.EnqueueItem | agent/src/interview/redis_sink.py:51-59 | a full or closed queue drops the item |
| RedisSink.RedisTranscriptWriter.TakeNext | agent/src/interview/redis_sink.py:87-90 | the drain loop takes the oldest item |
| RedisSink.RedisTranscriptWriter.SettleItem | agent/src/interview/redis_sink.py:90-103 | a successful command appends the item, a failed one loses it |
| RedisSink.RedisTranscriptWriter.CancelDrain | agent/src/interview/redis_sink.py:65-85 | what is queued at the end of the bounded wait is lost |
| RedisSink.CopyIsSubsequence | agent/src/interview/redis_sink.py:32-103 | whatever the timing and the failures, the list in Redis is an ordered subsequence of what was handed over |
| RedisSink.ListOnlyGrows | agent/src/interview/redis_sink.py:87-103 | what the writer found stays in front, and behind it stands an ordered subsequence of what it was handed |
| RedisSink.IntactCopy | agent/src/interview/redis_sink.py:32-103 | if nothing was dropped, the drained list is complete |
| RedisSink.DrainLoopDrains | agent/src/interview/redis_sink.py:87-103 | from whatever state, the drain loop gets everything out that was accepted, in order, behind what is stored |
| RedisSink.AcceptsWithinBounds | agent/src/interview/redis_sink.py:51-85 | the queue stays bounded, and a closed writer takes nothing more |
| Restore.CollectItems | agent/src/interview/conversation_log.py:349-370 | the loop keeps the items that parse and finds the largest number and the number of drops |
| Restore.RebuildConversationLog | agent/src/interview/conversation_log.py:349-370 | rebuilding keeps exactly the items that parse, counts the rest, and puts the floor at the largest number |
| Restore.ModeIsStructural | agent/src/interview/restore.py:88-122 | on any well-formed log looking at the last utterances finds the structural mode and its cause |
| Restore.SubKeepsWellFormed | agent/src/interview/conversation_log.py:349-370 | gaps keep the structure of a log |
| Restore.GapsNeverAdvance | agent/src/interview/restore.py:88-122 | no gap makes a session look further along |
| Restore.RebuiltIsSound | agent/src/interview/conversation_log.py:349-370 | the log rebuilt from any lossy copy is well formed and counts from above all its numbers |
| Restore.RewrittenCopyIsTheSame | agent/src/interview/conversation_log.py:119-164 | serialising a rebuilt log gives back its items, so a second session continues the same copy |
| Presence.PresenceMonitor.OnParticipantDisconnected | agent/src/interview/reconnect.py:75-98 | a departure of the candidate invalidates the turn, records the deadline and replaces the timer; other events are ignored |
| Presence.PresenceMonitor.OnParticipantConnected | agent/src/interview/reconnect.py:100-119 | a re-entry stops the timer, clears the deadline and resumes |
| Presence.PresenceMonitor.WatchWoken | agent/src/interview/reconnect.py:121-137 | a timer asks for the closing exactly when its deadline is reached, with HARD_TIMEOUT past the hard limit and RECONNECT_TIMEOUT otherwise |
| Presence.PresenceMonitor.StoreOperationDone | agent/src/interview/reconnect.py:139-143 | store operations take effect one at a time in the order they were issued |
| Presence.PresenceMonitor.Shut | agent/src/interview/reconnect.py:160-170 | closing the monitor stops its timer and drops what is queued |
| Presence.StoreAgreesOnceDrained | agent/src/interview/reconnect.py:75-143 | for any events and delays, once the queue has drained the stored deadline is absent exactly while the candidate is present, and else the last departure plus the window |
| Presence.FollowsTheCandidate | agent/src/interview/reconnect.py:75-119 | the monitor takes the candidate to be where their own last move put them and counts from their last departure, whoever else comes and goes, and however often a move is reported |
| Presence.FiresOnlyWhenDue | agent/src/interview/reconnect.py:121-148 | at most one timer is alive, only while the candidate is away, and when it wakes it fires exactly if the window of this absence has run out; no absence fires twice |
| Presence.AbsenceIsWatched | agent/src/interview/reconnect.py:75-119 | while the candidate is away a timer for this absence is alive or has fired; turns are invalidated once a departure |
| EndSequences.EndSequence.IsAllowed | agent/src/interview/end_sequence.py:76-91 | only a clear refusal in time stops a step |
| EndSequences.EndSequence.FlushTranscript | agent/src/interview/end_sequence.py:104-117 | the effects of the flush step and whether it succeeded |
| EndSequences.EndSequence.PurgeRedis | agent/src/interview/end_sequence.py:119-128 | the effects of the purge step |
| EndSequences.EndSequence.PublishReportRequest | agent/src/interview/end_sequence.py:130-138 | the effects of the publish step, which no owner check guards |
| EndSequences.EndSequence.DeleteAttempts | agent/src/interview/end_sequence.py:150-167 | attempts up to the limit, with a pause between two, stopping at the first success |
| EndSequences.EndSequence.Run | agent/src/interview/end_sequence.py:58-74 | the whole sequence has exactly the specified effects, whose laws follow |
| EndSequences.ShutdownExactlyOnce | agent/src/interview/end_sequence.py:58-74 | for every pattern of failures, hangs and refusals shutdown happens once, last |
| EndSequences.PurgeOnlyAfterFlush | agent/src/interview/end_sequence.py:58-74 | purge and publication come only after a flush that succeeded |
| EndSequences.ReconnectTimeoutKeepsNothing | agent/src/interview/end_sequence.py:61-66 | a session that ran out of its reconnect window is neither flushed nor purged nor reported |
| EndSequences.FlushedIsPublished | agent/src/interview/end_sequence.py:67-71 | a successful flush is followed by publication, whatever the purge does |
| EndSequences.RoomGoneOrExhausted | agent/src/interview/end_sequence.py:149-167 | the attempts end with a success, or every one was made and failed |
| EndLaws.RoomIsDeleted | agent/src/interview/end_sequence.py:140-167 | in the effects of a whole run the room is deleted or every attempt was made and failed, unless the owner check said no; after a no there is no attempt |
| EndLaws.FlushIsMade | agent/src/interview/end_sequence.py:61-66 | the transcript is flushed exactly if there is something to flush with, the cause asks for it and the owner check did not say no |
| EndLaws.FlushedIsKept | agent/src/interview/end_sequence.py:66-71 | purge and publication are made exactly after a flush that succeeded, the purge unless its owner check said no |
| EndLaws.CallsInOrder | agent/src/interview/end_sequence.py:58-74 | the writer is closed first, then come flush, purge, publication and the room, each behind its own owner check, attempts by number, nothing twice |
| EndLaws.GuardsAndRetries | agent/src/interview/end_sequence.py:76-167 | each guarded call stands directly behind its owner check, each further attempt directly behind a failed one and a pause |
| EndLaws.EffectsAreTrue | agent/src/interview/end_sequence.py:76-167 | every call has the result its answer gives within the step timeout, and takes no longer |
| EndSequences.EndsInTime | agent/src/interview/end_sequence.py:58-167 | the sequence ends within (7 + attempts) step timeouts and the pauses between attempts |
| Context.ClipWithinCap | agent/src/interview/context.py:24-37 | a clipped text is within its cap, a prefix with or without the marker, and unchanged whenever it fits |
| Context.DigitsReadBack | agent/src/interview/context.py:40-47 | the number in a line's tag can be read back |
| Context.LineReadsBack | agent/src/interview/context.py:40-47 | an independent reader gets from every numbered line who spoke, its number, for a question its root, and the clipped content |
| Context.BranchReadsBack | agent/src/interview/context.py:55-71 | line j shown of a branch reads back as utterance j of that branch |
| Context.OrchestratorContext | agent/src/interview/context.py:55-99 | the result is the first candidate that fits, or the tail from the last question; it is missing exactly when the last branch has no question and nothing larger fits; what its lines say is `Context.BranchReadsBack` |
| Context.ChosenIsLongest | agent/src/interview/context.py:77-99 | every allowed text that fits is a suffix of the chosen one, and only the bare tail may exceed the budget |
| ContextOnSessions.FreshContextIsFound | agent/src/interview/context.py:86-92 | on a fresh session's log the last branch is the current one and the tail starts at the last question |
| ContextOnSessions.RebuiltContextExample | agent/src/interview/context.py:86-92 | a rebuilt log whose last branch has no question |
| ReportRepository.ReportTable.CreateReportWithJob | worker/src/report/repository.py:155-192 | a session's report is created once; a second creator yields |
| ReportRepository.ReportTable.TryTransition | worker/src/report/repository.py:197-214 | the status moves only from the expected one |
| ReportRepository.ReportTable.MarkFailed | worker/src/report/repository.py:217-235 | a failure never overwrites an outcome |
| ReportRepository.ReportTable.TryComplete | worker/src/report/repository.py:238-275 | completion takes PROCESSING, text done and, where required, audio done, and sets the overall score |
| ReportRepository.ReportTable.SaveTextResults | worker/src/report/repository.py:301-350 | text results replace each other whole, feedback and summary included (`ReportProtocol.TextWasStored`), and leave voice tags in place |
| ReportRepository.ReportTable.SaveAudioResult | worker/src/report/repository.py:370-406 | audio results replace each other, leave text tags in place, and are refused after the end |
| ReportRepository.ReportTable.CompleteOverdueAudio | worker/src/report/repository.py:409-443 | a report whose audio is overdue completes on its text axes |
| ReportRepository.OverallIsMean | worker/src/report/repository.py:253-263 | the overall score is the half-up mean of three axes, and delivery where there is one, within 0..100 |
| ReportRepository.OverallIsTheMean | worker/src/report/repository.py:253-263 | a number is the overall score exactly when it is that half-up mean |
| ReportRepository.RoundingsAgree | worker/src/report/pipeline.py:260-262 | the pipeline's rounding and the database's agree exactly away from negative ties |
| ReportRepository.AggregateStaysOnScale | worker/src/report/pipeline.py:265-273 | axis scores are half-up means over the answers and stay within 0..100 |
| ReportRepository.StagesCommute | worker/src/report/repository.py:342-406 | text then audio, audio then text, and audio before the report was taken up end in the same row: status, overall score, tags, delivery, axis scores, feedback and summary |
| ReportRepository.StagesCommuteWithoutAudio | worker/src/report/pipeline.py:174-188 | with audio switched off the orders agree exactly when audio had nothing to add |
| ReportProtocol.StepKeeps | worker/src/report/pipeline.py:70-208 | every statement of every processor keeps the invariant |
| ReportProtocol.NothingLeftToComplete | worker/src/report/pipeline.py:174-188 | after every step no row is PROCESSING with everything done that its completion needs |
| ReportProtocol.OneTerminalEvent | worker/src/report/pipeline.py:187-208 | at most one terminal event is published, and it names the final status |
| ReportProtocol.EndIsFrozen | worker/src/report/repository.py:217-275 | after the end status, overall score, delivery score, audio time, and when or why it ended never change |
| ReportProtocol.EndIsRecorded | worker/src/report/repository.py:217-275 | a completion time and an overall score are there exactly on a completed row, a reason exactly on a failed one |
| ReportProtocol.CompletedScoreIsMean | worker/src/report/repository.py:253-275 | every completion sets the overall score to the half-up mean, and it stays the mean of the row unless text was stored late |
| ReportProtocol.AudioEndsAnyTime | worker/src/report/audio_pipeline.py:101-109 | over the steps of a text and an audio processor the report comes out the same, feedback and summary included, at whatever point the audio stage ends, and exactly one of the two has its completion to announce |
| ReportProtocol.TextWasStored | worker/src/report/repository.py:301-350 | over every run a row whose text is done has feedback, and its scores, feedback and summary are together those of one validated result that a text processor of the run stored |
| ReportProtocol.AudioWasStored | worker/src/report/repository.py:370-406 | over every run a row whose audio is done has the delivery score and voice tags of one result that an audio processor of the run stored |
| ReportProtocol.OverdueIsCompletedIff | worker/src/report/repository.py:409-443 | the grace timer completes a report exactly if its text is done, its audio is not, and its grace has run out |
| ReportProtocol.ThresholdGivesUp | worker/src/report/pipeline.py:107-111 | from the delivery threshold on a report without an outcome is failed |
| ReportProtocol.OneDeliveryCompletes | worker/src/report/pipeline.py:70-208 | one undisturbed delivery creates the report, completes it with the results it was given and announces that |
| ReportProtocol.LateTextRewritesAxes | worker/src/report/repository.py:346-350 | a run in which a second text processor replaces the axes of a completed report |
| ReportPipeline.ReportWorker.GenerationRead | worker/src/report/pipeline.py:89-143 | what a text processor does with the row it read |
| ReportPipeline.ReportWorker.GiveUp | worker/src/report/pipeline.py:193-208 | giving up fails the report unless it has an outcome |
| ReportPipeline.ReportWorker.GenerationEnter | worker/src/report/pipeline.py:145-157 | PROCESSING is entered by transition, or taken over on redelivery |
| ReportPipeline.ReportWorker.GenerationStore | worker/src/report/pipeline.py:174-188 | results and verdict are one transaction |
| ReportPipeline.ReportWorker.AudioReadRow | worker/src/report/audio_pipeline.py:59-91 | what an audio processor does with the row it read |
| ReportPipeline.ReportWorker.AudioStore | worker/src/report/audio_pipeline.py:101-109 | audio results and verdict are one transaction |
| ReportPipeline.ReportWorker.CompleteOverdueOnce | worker/src/report/main.py:160-168 | the grace timer completes and announces an overdue report |
| ReportPipeline.ReportWorker.HandleAll | worker/src/report/pipeline.py:70-208 | any interleaving leaves the worker where the protocol ends, with the invariant |
| Redelivery.WithRetry | worker/src/report/pipeline.py:211-236 | the first success or, after all attempts, none; the sleeps together are exactly base * (2^(calls-1) - 1) |
| Redelivery.EvaluateAll | worker/src/report/pipeline.py:239-257 | the first answer for each topic, or a stop exactly if some topic used up its attempts |
| Redelivery.ProcessGenerationRequest | worker/src/report/pipeline.py:91-188 | results are stored exactly if this delivery may evaluate and every topic and the summary are answered in time, and are those answers; an exception leaves it exactly if it does not get there or could not publish; at most (topics + 1) * attempts evaluator calls, none from the threshold on |
| Redelivery.HandleEntry | worker/src/report/main.py:192-206 | a malformed message is acknowledged, one whose evaluation failed is not, one whose results were stored and announced is |
| Redelivery.DeliverUntilAcked | worker/src/report/main.py:173-206 | all deliveries together make at most (threshold - 1) * (topics + 1) * attempts calls, and the message is acknowledged by the threshold unless that delivery dies or cannot publish |
| ResumeIndex.StepKeeps | worker/src/analysis/pipeline.py:149-170 | the rank never falls, the end is final, structured data changes only on STRUCTURING to PARSED, chunks only on entering EMBEDDED |
| ResumeIndex.IndexAgrees | worker/src/analysis/pipeline.py:294-350 | under any interleaving and crashes an EMBEDDED resume has the chunks built from exactly the stored structured data |
| ResumeIndex.WorkerIndexAgrees | worker/src/analysis/pipeline.py:294-350 | with the worker's own chunk builder and settings, chunks and metadata then also have equal length |
| ResumeIndex.OutcomeIsFinal | worker/src/analysis/pipeline.py:72-77 | the outcome is announced at most once, truthfully, and nothing changes afterwards |
| ResumeProgress.AnalysisFinishes | worker/src/analysis/pipeline.py:107-350 | an undisturbed processor ends an early resume as EMBEDDED with the data the model structured and the chunks built from it, announcing every status in order |
| ResumeProgress.IndexingResumes | worker/src/analysis/pipeline.py:149-170 | from PARSED or EMBEDDING on the stored data is embedded, in both modes |
| ResumeProgress.FailedIffGivenUp | worker/src/analysis/pipeline.py:129-258 | a resume becomes FAILED exactly by giving up: threshold, reindex of an early status, a file without text, EMBEDDING without data; and that is announced |
| ResumeProgress.IndexIsOfThisRun | worker/src/analysis/pipeline.py:279-350 | whoever races and dies, new data is what the model structured in the run, and the index of a resume that became EMBEDDED was made under an enrichment given in the run |
| ResumePipeline.ResumeStore.MarkFailed | worker/src/storage/repository.py:143-160 | a failure never overwrites an outcome |
| ResumePipeline.ResumeStore.SaveStructuredAndAdvance | worker/src/analysis/pipeline.py:265-276 | structured data is stored only together with the transition |
| ResumePipeline.ResumeStore.ReplaceChunks | worker/src/storage/repository.py:233-267 | a mismatch of lengths is refused before anything is deleted |
| ResumePipeline.ResumeStore.CommitChunks | worker/src/analysis/pipeline.py:334-350 | the loser of the transition rolls its chunks back |
| ResumePipeline.AnalysisWorker.EnterStage | worker/src/analysis/pipeline.py:57-69 | a stage is entered by the one processor that moves the status |
| ResumePipeline.AnalysisWorker.Route | worker/src/analysis/pipeline.py:129-170 | the status decides where to enter; a reindex of an early status fails |
| ResumePipeline.AnalysisWorker.HandleAll | worker/src/analysis/pipeline.py:107-350 | any interleaving leaves the worker where the protocol ends, with the invariant |
| Chunking.Pack | worker/src/analysis/chunking.py:122-135 | the packing loop computes the specified pieces |
| Chunking.SplitOversized | worker/src/analysis/chunking.py:104-141 | a long entity becomes its pieces under the header, an empty body one chunk; what the texts say is `ChunkContents.SplitConserves` |
| Chunking.PackingConserves | worker/src/analysis/chunking.py:122-135 | without what they repeat the pieces are the sentences in order; each has one of its own, fits the budget or has only that, and is begun only when the one before has no room |
| Chunking.BuildChunks | worker/src/analysis/chunking.py:146-225 | the three loops build the specified chunks and metadata |
| Chunking.ChunkStructuredData | worker/src/analysis/chunking.py:247-298 | the older loops, one for each kind of entity, build the specified chunks |
| Chunking.BuildAgreesWithPlain | worker/src/analysis/chunking.py:146-298 | without achievements both forms build the same chunks |
| Chunking.ChunksHaveExtras | worker/src/analysis/chunking.py:166-225 | chunks and metadata have the same length |
| ChunkContents.SplitConserves | worker/src/analysis/chunking.py:104-141 | every text of a long entity starts with the header, their bodies are the joined pieces of a packing that conserves the sentences, and the tail ends the last |
| ChunkContents.SentencesInOrder | worker/src/analysis/chunking.py:122-140 | every sentence of the body occurs in some text, in order |
| ChunkContents.BodiesAreSentences | worker/src/analysis/chunking.py:136-140 | without overlap the bodies joined by spaces are the sentences joined by spaces |
| ChunkContents.TailEndsLast | worker/src/analysis/chunking.py:136-140 | with a tail only the last text changes, by the tail at its end |
| ChunkContents.EntityConserves | worker/src/analysis/chunking.py:235-244 | an entity that fits is one text with all its parts, a longer one keeps its sentences |
| ChunkContents.ProjectIsIndexed | worker/src/analysis/chunking.py:170-201 | a project without achievements is in the index: its header on every chunk, its description, and its technologies |
| ChunkContents.AchievementIsIndexed | worker/src/analysis/chunking.py:170-192 | each achievement is a chunk with its text, the project, its introduction and technologies, its number and its hints |
| ChunkContents.ExperienceIsIndexed | worker/src/analysis/chunking.py:203-213 | an experience is in the index with its title on every chunk, its description and its hints |
| ChunkContents.SkillIsIndexed | worker/src/analysis/chunking.py:215-225 | a skill category is one chunk that names all its items |
| Resampling.Resampler.Push | worker/src/report/audio.py:151-160 | a block, however short, yields exactly the batch samples that fall into it |
| Resampling.ResampleTo16k | worker/src/report/audio.py:163-172 | for any split into blocks the outputs together are the resampled whole |
| Resampling.TakenAt | worker/src/report/audio.py:151-160 | sample i of the result is the zero-prefixed filter at i * step, and there are ceil(length / step) |
| Resampling.ImpulseGivesTaps | worker/src/report/audio.py:151-160 | the filter answers an impulse with its taps, in order, the first at once |
| Resampling.FilterIsLinear | worker/src/report/audio.py:151-160 | the filter is linear, so these answers determine it |
| Resampling.MonoIsMean | worker/src/report/audio.py:151-154 | a mono sample is the mean over the channels |
| Resampling.Probabilities | worker/src/report/audio.py:193-216 | the network sees the same ceil(length / 512) windows, the last one padded, however the signal arrives |
| Resampling.NetworkSees | worker/src/report/audio.py:193-216 | the network starts from its start state and sees window i with the 64 samples before it, zeros before the first |
| Resampling.DetectProbabilities | worker/src/report/audio.py:367-379 | probabilities depend on the recording, not on how it was read |
| Segmentation.ScanProbabilities | worker/src/report/audio.py:233-257 | the scan finds the specified raw segments |
| Segmentation.PadInPlace | worker/src/report/audio.py:259-271 | padding in place is the closed form for every gap |
| Segmentation.SpeechSegments | worker/src/report/audio.py:226-272 | scan and padding with the constants in use |
| Segmentation.SegmentsSound | worker/src/report/audio.py:226-272 | segments are ordered, disjoint, inside, longer than the minimum speech, at least 1600 samples apart, and the short-silence branch is never taken |
| Segmentation.DisjointForAnyPad | worker/src/report/audio.py:259-271 | disjointness holds for every pad |
| Segmentation.SustainedSpeechIsFound | worker/src/report/audio.py:233-257 | a run of windows that begins loud, has no silent one and is longer than the minimum speech lies within a segment |
| Segmentation.SilenceSplits | worker/src/report/audio.py:246-255 | but for the pads no segment reaches into five silent windows in a row |
| Segmentation.WidenedByPad | worker/src/report/audio.py:259-271 | a segment is widened by the whole pad on both sides, up to the ends of the recording |
| Segmentation.SegmentsBeginLoud | worker/src/report/audio.py:240-245 | every raw segment begins at a loud window |
| Delivery.MetricsFit | worker/src/report/audio.py:275-364 | speech and pauses are no longer than the recording, and long pauses account for two seconds each |
| Delivery.TimeIsAccounted | worker/src/report/audio.py:275-294 | from the first to the last sound every second is speech, a pause, or a gap of more than ten seconds |
| Delivery.PausesAreGaps | worker/src/report/audio.py:275-294 | exactly the gaps of at most ten seconds are pauses |
| Delivery.RatesAre | worker/src/report/audio.py:97-117 | the rate, the pause share and the long pauses a minute are the quotients they stand for |
| Delivery.ScoreIsRest | worker/src/report/audio.py:316-332 | the penalties share out exactly the hundred points, so the score is 100 less the penalties to the nearest integer and the clamp never takes effect |
| Delivery.PenaltiesAre | worker/src/report/audio.py:316-332 | what each quantity costs, piece by piece: nothing where comfortable, then in proportion, up to 40, 40 and 20 points |
| Delivery.WorseNeverScoresHigher | worker/src/report/audio.py:316-332 | a rate no nearer to the range, pauses of no smaller share and long pauses no rarer never score higher |
| Delivery.TagsMatchPenalties | worker/src/report/audio.py:335-350 | a rate tag is given exactly when the rate costs points, never both; frequent silence carries the long-pause count, appears only from the minimum count on, and costs at least ten points; no tag is given twice |
| Delivery.DeliveryIsStorable | worker/src/report/audio.py:316-350 | a score within 0..100 and only voice tags, or neither when there is too little speech |
| Delivery.LongPausesNeverHelp | worker/src/report/audio.py:316-332 | more long pauses never raise the score |
| Transcripts.GroupUtterances | worker/src/contract/transcript.py:54-77 | one pair a number, in ascending order, questions and answers joined in time order |
| Transcripts.ByTimeSorts | worker/src/contract/transcript.py:66 | the time order is a sorted permutation |
| Transcripts.ByTimeIsStable | worker/src/contract/transcript.py:66 | utterances of the same instant keep their order |
| Transcripts.GroupTopics | worker/src/report/evaluator.py:86-94 | one topic a parent, in ascending order, pairs in order |
| Transcripts.TopicsPartition | worker/src/report/evaluator.py:86-94 | grouping into topics loses and repeats nothing |
| Transcripts.Validated | worker/src/report/evaluator.py:127-141 | an evaluation passes exactly when it echoes the numbers that were sent, in order, and is then tidied up answer by answer |
| Transcripts.SanitizedObeysRules | worker/src/report/evaluator.py:106-124 | stored evaluations obey the vocabulary, the counts and the title length, and what obeys them is stored as it is |
| Transcripts.FirstTagsAreStored | worker/src/report/evaluator.py:106-124 | of too many listed tags the first ones are stored |
| Transcripts.FeedbackCoversPairsOnce | worker/src/report/pipeline.py:239-257 | for any transcript the feedback has each pair's number exactly once and no other |
| TranscriptContract.LoadTranscript | worker/src/report/repository.py:137-150 | the loop loads exactly the numbered utterances, normalised, and fails on one that does not validate |
| TranscriptContract.OneNormalized | worker/src/report/repository.py:107-134 | a valid agent utterance normalises to the same line in the worker's terms, and only a closing is left out |
| TranscriptContract.TopicsAreBranches | worker/src/report/evaluator.py:86-94 | on every well-formed log whose numbers stand for one branch each and whose answers come in time, topics are the log's branches by ascending root and exchanges by number |
| TranscriptContract.WorkerSeesBranches | worker/src/contract/transcript.py:54-77 | for every life of every session, fresh or rebuilt from a copy with any gaps, the worker reads the transcript without an error and sees the log's branches by ascending root, with answers joined in log order and an empty question where a gap took it |
| TranscriptContract.OrdersAgreeIff | worker/src/report/evaluator.py:86-94 | on every such log the topics stand in log order exactly when branches and exchanges come up in ascending order |
| TranscriptContract.WorkerSeesLogOrder | agent/src/interview/conversation_log.py:262-279 | with writers that only append, for every life of every session, the topics are the branches in the order in which branches and exchanges come up in the log |
| TranscriptContract.WorkerSeesFreshSession | worker/src/contract/transcript.py:54-77 | the same for a session that never crashed |
| TranscriptContract.OrphanIsEvaluated | agent/src/interview/conversation_log.py:349-370 | an answer whose question a gap took makes a pair of its own, with an empty question |

## Left out

- LiveKit, Redis, PostgreSQL, S3, Bedrock, stream and HTTP plumbing: results are arguments, rows and lists are values.
- The voice activity network, the filter taps, language model texts, prompt wording, sentence splitting, white space stripping and syllable counting: arguments of the model.
- Session store, transcript store, report request, metrics and logging: small guards and wrappers.
- The interview clock: whether wrap-up has begun and whether the hard limit has passed are arguments.
- Cancellation inside `aclose` beyond "a cancelled coroutine runs no further step".
- `build_restore_plan` beyond log and mode: start time, elapsed time and identity are copied through.
- `aggregate_tag_summary`: the three most frequent tags, a single sort.
- `record_job_error`, retry counters and failure texts: kept for operators, read by no decision.
- Backend transitions such as regeneration, restart and webhooks: outside this code.
- Follow-up and topic messages for question generation: the same branches without a budget.
- Naive and offset times mixed in one transcript: comparing them raises in the source.
- Floating-point rounding of filter values, rates and penalties.
- Pipeline.TurnPipeline.PlayoutDone: the speech lock is handed to any waiter, more than the source allows.
- Presence.StoreAgreesOnceDrained: says nothing after the monitor was closed, when operations are cancelled.
