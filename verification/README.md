# Tractor server and dashboard: protocols, pipelines and small cores

A model of the parts of the repository whose correctness spans several calls: the remote
AI decision protocol, the game session and its bots, the training-log pipeline from the
writer thread to the dashboard's window, the metric projections, the control of the
training process, and a few small cores beside them. Every file is one module; start at
the top of each group.

**Remote decisions.** `RemoteWire`, `RemoteRegistry` (the server's sessions),
`RemoteController` (the client's buffer), `RemoteRetry` (the retry loop), `RemoteSafety`
(one session under every interleaving of its atomic parts), `RemoteWorld` (client,
server and a network that loses, delays and repeats attempts), `RemoteRefinement` (the
whole refines a memoizing controller in the client's own process), `RemoteFleet` (several
controllers over one registry, each as if it were alone).

**Game sessions.** `Game` (phases and the four confirmations), `Session` (the actor),
`Table` (session, mailbox, channels, bots and an arbitrary environment), `TableStreams`
(linearization and what each seat is sent), `TableBots` (what holds of every bot),
`Answers` (what every message is answered with), `BotContinuity` (the session delivers what the remote controller demands), `Handshake`
(four bots never stall and every schedule ends a confirmation phase), `Initialization`
(when bots report themselves, and that all four do after the first deal), `FailureReports`
(when the assertion against a second failure report can fire), `OneBot` (runs of one bot
among three human players in which it is asked twice about one view), `Roster`, `Room`,
`PlaybackQueue`.

**Training data.** `Writer` (bounded queue, batches, drop accounting), `LogPaging`
(cursor queries), `LogMerge`, `LogsDomain`, `LogWindow` (the dashboard's merge window
against a growing, replaceable log), `LogGaps` (exactly which steps leave a gap in it, and
runs in which they do), `MetricBuckets`, `MetricStatistics`,
`MetricGroups`, `Metrics`.

**Training control.** `PidFile`, `ProcessControl`, `ShellQuoting`, `Decimal`,
`ManifestNames`.

How the models are built: an asynchronous method is split at its awaits (and a method
that calls back, at its callbacks); each part is a step of a state machine, and a run is
any sequence of enabled steps. Where the source updates an object in place there is a
class whose methods are proved to take the object's abstract value from one state of that
machine to the next, and the theorems are about all runs of the machine. `seq` is a word
of the language, so sequence numbers are called `at`.

## Where a promise fails

The code is kept as it is; each failure has a run from the initial state, and an exact
condition.

- A decision task whose last waiter is cancelled or overtaken stays in the in-flight slot
  (`RemoteSafety.CancelledWaiterWedges`), and nothing that can still happen then changes
  the session (`RemoteWorld.WedgedForEver`). A request is refused for that reason if and
  only if the slot holds another sequence (`RemoteSafety.RefusedIffOccupied`), and in
  orderly runs if and only if it overtakes a waiter (`RemoteRefinement.RefusedIffOvertaking`).
- After a failed decision a replay of the same request is admitted if and only if it
  carries at most one view (`RemoteSafety.ReplayAfterFailure`); with two it is rejected as
  a gap (`RemoteSafety.FailedDecisionIsNotRetried`).
- A bot that has been sent a rejection trips the continuity assertions of a remote
  controller behind it, and only such a bot does (`BotContinuity.ContinuousIffUnrejected`);
  a policy that chooses a command of another phase brings it about (`OneBot.SentARejection`).
- A confirmation overtaken by another player's is answered with a second view of the new
  sequence, so that a bot confirms twice and is sent its first decision twice
  (`OneBot.AskedTwice`). If its policy is unavailable both times it reports twice, and the
  second report trips the session's assertion (`OneBot.FailsTwice`). Four bots can run into
  the assertion without another report if and only if more than one has been posted
  (`FailureReports.SecondReportFiresIff`); no table on which at most one report is posted
  ever does (`FailureReports.OneReportNeverFires`).
- A refresh that takes effect while an older page is awaited can leave a gap in the log
  window (`LogGaps.RefreshDuringLoadOlderLeavesAGap`), and so can a record of a store whose
  successor an older page has already shown (`LogGaps.ForeignRecordArrives`). Without these
  two there is never a gap (`LogGaps.CalmRunsNeverTear`); with them, exactly the pages and
  records that lie apart from the window leave one (`LogGaps.WindowIsWholeIff`).
- Closing a room while a connect waits for its session trips the assertion in close and
  the room then becomes active again (`Room.CloseDuringStartReopens`); exact conditions
  are `Room.CloseFaultsIff` and `Room.ClosedForGoodIff`.
- A queue cleared by its listener while it is told of a delivery still delivers that
  message (`PlaybackQueue.ClearedMessageIsDelivered`), and exactly then a message is
  delivered that was not enqueued since the last clear (`PlaybackQueue.DeliveryIsAccountedForIff`).
- The flush after the writer's loop never runs: the thread halts holding nothing, but a
  last batch that is rolled back is lost without a trace although all of it was offered
  before the stop (`Writer.RolledBackLastBatchIsLost`). Every offered event is logged or
  reported if and only if the queue is empty, no drop is counted and no refusal is about to
  be (`Writer.NothingIsLostIff`); an event queued after the stop may be left behind or still
  be written (`Writer.HaltedHoldsNothing`, `Writer.LateEventIsWritten`).

## Model

| member | source | states |
|---|---|---|
| RemoteWire.ContiguousIffNeighbours | server/game_ai/remote.py:140-158 | the validator's comparison of neighbours accepts exactly the gap-free, duplicate-free runs |
| RemoteWire.ValidIffChecked | server/game_ai/remote.py:140-158 | a request is valid exactly when its neighbouring views are consecutive and its last view, if any, is the one to decide about |
| RemoteRegistry.ObserveAllFrame | server/game_ai/remote.py:263-283 | the observation loop touches only the last observation and the controller's calls, even where it stops with an error |
| RemoteRegistry.ObserveAllDecides | server/game_ai/remote.py:263-283 | on a valid request's views the loop reports a conflict, or a gap, exactly by how the first view meets the last one observed, and then observes nothing; otherwise it observes every new view in order |
| RemoteRegistry.AdmitDecides | server/game_ai/remote.py:244-298 | the answer to any valid request and what it leaves, case by case, a new decision being about the latest view observed |
| RemoteRegistry.RemoteSession.ObserveRequest | server/game_ai/remote.py:263-283 | the loop over the request's views: equal repeats skipped, conflicts and gaps refused where they occur, the rest observed |
| RemoteRegistry.RemoteSession.AdmitRequest | server/game_ai/remote.py:244-298 | one session's share of the prelude, with its whole new state: answer from memory, join, refuse, or start a task |
| RemoteRegistry.RemoteSession.DecideNew | server/game_ai/remote.py:306-322 | the completed task's response and the memory it leaves; an unavailable decision leaves none |
| RemoteRegistry.RemoteSession.LeaveAwait | server/game_ai/remote.py:257-262 | a leaving waiter clears the slot only if its own finished task is still in it |
| RemoteRegistry.RemoteSessionRegistry.Decide | server/game_ai/remote.py:229-298 | creating, finding or refusing a session and admitting the request; every other session is untouched |
| RemoteController.BufferedRequestsAreValid | server/game_ai/remote.py:368-413 | any interleaving of views and replies keeps the buffer such that every request passes the server's validator |
| RemoteController.RemoteAIController.Observe | server/game_ai/remote.py:368-392 | a repeated view is collapsed, the next one is buffered |
| RemoteController.RemoteAIController.BeginDecide | server/game_ai/remote.py:394-413 | the request names the controller's own session and seat, carries the whole buffer and is valid |
| RemoteController.RemoteAIController.EndDecide | server/game_ai/remote.py:413-432 | any decoded reply clears the buffer, no other outcome does; the command is the reply's |
| RemoteRetry.BackoffStep | server/game_ai/remote.py:489-495 | the updated delay is min(initial * 2^k, maximum), with an initial delay of zero staying zero |
| RemoteRetry.RequestWithRetry | server/game_ai/remote.py:434-495 | every timeout and sleep fits the remaining budget, every sleep is the number drawn from zero to the smaller of the backoff and the time left, no attempt starts at or after the deadline, the loop ends by it, and the outcome is that of the first attempt that did not fail retryably |
| RemoteRetry.RetryableStatuses | server/game_ai/remote.py:31-31 | the statuses after which the loop tries again |
| RemoteSafety.StepKeeps | server/game_ai/remote.py:244-322 | every atomic part keeps the session invariant and only ever appends decisions |
| RemoteSafety.RunIsSafe | server/game_ai/remote.py:244-322 | in every interleaving at most one decision task runs, decided sequences strictly increase, and the controller's views are gap-free and duplicate-free |
| RemoteSafety.AnswersAreDecisions | server/game_ai/remote.py:244-322 | every command answered in a run, fresh, joined or cached, is the recorded decision of its sequence |
| RemoteSafety.CommandsAgree | server/game_ai/remote.py:248-262 | two commands ever answered for one sequence are equal |
| RemoteSafety.NothingInterleavesADecision | server/game_ai/remote.py:251-262 | while a decision runs nothing else reaches the controller |
| RemoteSafety.RefusedIffOccupied | server/game_ai/remote.py:251-256 | exactly when a request is refused because another decision is in progress |
| RemoteSafety.CancelledWaiterWedges | server/game_ai/remote.py:297-304 | the run in which a cancelled waiter wedges a session whose replay still answers |
| RemoteSafety.ReplayAfterFailure | server/game_ai/remote.py:263-283 | after an uncached failure a replay starts a decision if and only if it carries at most one view, else it is a gap |
| RemoteSafety.FailedDecisionIsNotRetried | server/game_ai/remote.py:263-283 | the run in which a request with two views fails and its replay is rejected as a gap |
| RemoteWorld.ServerSeesTheClientsViews | server/game_ai/remote.py:263-283 | in every run the server controller observes a gap-free segment of exactly the client's views, from the first one while no error reply was decoded |
| RemoteWorld.WedgedForEver | server/game_ai/remote.py:248-262 | once nobody waits for the finished task in the slot, no later move of the client, the network or the server changes the session, and it refuses every other sequence |
| RemoteRefinement.BufferIsApplied | server/game_ai/remote.py:263-283 | a buffer that continues the controller's views is applied completely and in order |
| RemoteRefinement.StaleIsInert | server/game_ai/remote.py:244-298 | an attempt at a decided request, however late, changes nothing and starts nothing |
| RemoteRefinement.RemoteRefinesLocal | server/game_ai/remote.py:229-322 | in every orderly run the calls reaching the server's controller are those of an in-process memoizing controller fed the same history |
| RemoteRefinement.ClientNeverSeesAnError | server/game_ai/remote.py:413-432 | every reply an orderly client accepts is a command and keeps step with that controller |
| RemoteRefinement.AfterGivingUp | server/game_ai/remote.py:434-495 | when the client gives up on a request and asks nothing more, whatever its attempts in the network still do, the server's controller ends with the reference's calls less the unsent buffer, or with all of them, or with the abandoned decision as well |
| RemoteRefinement.RefusedIffOvertaking | server/game_ai/remote.py:251-256 | the awaited request is refused if and only if it overtakes a waiter of an earlier decision |
| RemoteFleet.EveryControllerIsAlone | server/game_ai/remote.py:229-298 | in every run of any number of controllers with distinct ids over one registry, each controller and the session under its id are in a state they can reach alone |
| RemoteFleet.SessionsAreTheirControllers | server/game_ai/remote.py:234-247 | every session is some controller's, has its seat, and has observed a gap-free sequence of that controller's views and no other's |
| RemoteFleet.NobodyIsMistaken | server/game_ai/remote.py:234-247 | no move of one controller changes another's session, and no request is ever told that its session belongs to another seat |
| Game.AwaitedConfirmationsAreAccepted | server/game/_engine/aggregate.py:85-167 | a confirmation is accepted exactly when the seat's own view awaits the next round |
| Game.ApplyKeepsIncomplete | server/game/_engine/aggregate.py:73-167 | a confirmation adds exactly its seat or, as the fourth, starts the round; nothing else is accepted meanwhile |
| Game.ConfirmationsCommute | server/game/_engine/aggregate.py:120-155 | the missing seats may confirm in any order and start the same round, with the last and not before |
| Game.DealsFollow | server/game/_engine/aggregate.py:120-155 | which round a confirmation phase leads to: its number, levels and declarer |
| Game.CommandsHaveOneKind | server/game/_engine/aggregate.py:93-112 | which commands each phase of a round accepts at all |
| Game.RoundsFollowTheRules | server/game/_engine/aggregate.py:85-118 | inside a round a command is accepted exactly if it is of the phase's kind and the card rules accept it, and what follows is what they say |
| Game.ViewsAwaitTheirSeat | server/game/_engine/aggregate.py:85-167 | a view awaits a missing confirmation or the acting seat's command of the phase's kind, and nothing else |
| Session.BroadcastReachesEveryReadySeat | server/game_runtime/_session.py:401-403 | a broadcast sends each ready seat exactly one view, the current one, and nothing to the others |
| Session.SessionActor.ServeNext | server/game_runtime/_session.py:277-399 | one turn of the serve loop takes the oldest message and produces the specified state and views, whose content is Answers.TurnAnswers |
| Answers.TurnAnswers | server/game_runtime/_session.py:281-308 | exactly which view a turn sends to each seat, in every case: acceptance, refusal with its reason, staleness, failure, request, readiness |
| Answers.ErrorsAnswerRefusals | server/game_runtime/_session.py:326-371 | in every run a seat is sent what the turns sent it; a ready seat's refused command is answered to it alone by one live, current view with the reason, and a live view carries a reason only as such an answer |
| Session.SessionActor.CompletePut | server/game_runtime/_session.py:405-422 | a put completes only into an empty channel and in order |
| Table.OnlyAcceptanceMoves | server/game_runtime/_session.py:326-383 | stale, undecodable, rejected and post-failure submissions change neither the game nor the sequence; an accepted one advances both by exactly one step |
| Table.BotPlayer.TakeView | server/game_bots/_player.py:88-124 | what a bot posts for one view, when it reports itself initialized, and whether its policy is asked |
| TableStreams.SessionLinearizes | server/game_runtime/_session.py:326-383 | in every reachable state the sequence is one more than the accepted commands, the game is their fold, and each was applied to the very phase that views of its sequence show |
| TableStreams.ViewsAreGapFreeAndTruthful | server/game_runtime/_session.py:281-287 | a seat's views stay or advance by one, each is its observation of that sequence's phase, failure is sticky, and the newest is current |
| TableBots.BotMessagesAreServed | server/game_runtime/_session.py:281-308 | whatever other seats post, no assertion of the serve loop fires on a bot's message, the one against a second failure report apart |
| TableBots.ConfirmationsAreNeverRejected | server/game_bots/_player.py:104-109 | a bot's confirmation is accepted if it is current and otherwise stale, never rejected |
| Initialization.InitializedIffSettled | server/game_bots/_player.py:88-101 | in every run a looping bot has reported itself exactly if it has taken a view that is failed or awaits something else than the next round, and the report is in the mailbox once or has been served |
| BotContinuity.ContinuousIffUnrejected | server/game_ai/remote.py:381-392 | the continuity assertions of a remote controller behind a bot hold on all it received if and only if it was sent no rejection |
| BotContinuity.DecisionsMatchTheLatestView | server/game_ai/remote.py:400-409 | whenever an unrejected bot asks its policy, the assertion about the latest view holds |
| FailureReports.OneReportNeverFires | server/game_runtime/_session.py:385-399 | in every run in which at most one failure report is posted, by any seat, the assertion against a second one never fires |
| FailureReports.SecondReportFiresIff | server/game_runtime/_session.py:385-399 | after any run of four bots, a continuation without another report fires that assertion if and only if more than one report has been posted |
| OneBot.AskedTwice | server/game_bots/_player.py:96-124 | for every rules and levels, a run in which the first acting bot is asked about its first decision while a second copy of the same view waits for it |
| OneBot.FailsTwice | server/game_bots/_player.py:117-136 | a run in which no human player reports anything and the bot's second report is about to trip the assertion |
| OneBot.SentARejection | server/game_runtime/_session.py:359-371 | a run in which a bot is sent a rejection and the continuity assertions of the controller behind it fire |
| Handshake.NeverStalls | server/game_runtime/_session.py:281-308 | after any run of four bots, while the session has not failed and the game awaits anybody, some bot or the session can move: full channels and the ready barrier never deadlock |
| Handshake.PlayerDecreases | server/game_bots/_player.py:85-109 | every step of a bot and every completed put lowers the weight of views and submissions in flight |
| Handshake.ServeDecreases | server/game_runtime/_session.py:326-383 | every turn of the session fails it, accepts a confirmation, or lowers that weight |
| Handshake.SomebodySchedules | server/game_bots/_player.py:85-109 | there is a scheduler that always finds a move while a confirmation is pending |
| Handshake.EveryScheduleConfirms | server/game_bots/_player.py:85-109 | from every state four bots can reach and under every scheduler, fair or not, a confirmation phase ends: the session failed or the next round began with all four confirmed |
| Handshake.EveryScheduleStartsTheGame | server/game_runtime/_session.py:277-399 | from a new table of four bots every schedule deals the first round, and no failure comes before it |
| Initialization.SomebodyAttends | server/game_bots/_player.py:88-101 | there is a scheduler that goes on taking views until all four reports are served |
| Initialization.EveryScheduleInitializes | server/game_runtime/_session.py:136-160 | from a new table of four bots every schedule that goes on taking views deals the first round and has all four reports served, each once, unless some policy has reported a failure |
| Roster.SeatRoster.Occupy | server/game_runtime/_roster.py:84-108 | the whole new state and answer of occupying, with both indexes still mirrors |
| Roster.SeatRoster.Vacate | server/game_runtime/_roster.py:110-124 | vacating removes exactly the matching human, with both indexes still mirrors |
| Roster.SeatRoster.FillBots | server/game_runtime/_roster.py:126-146 | all empty seats are filled and occupied ones kept, or nothing changes; refused exactly if frozen, not an owner, or some needed bot is refused |
| Roster.SeatRoster.HumanAt | server/game_runtime/_roster.py:148-158 | the lookup by user finds the human of the seat if and only if the user sits there |
| Roster.SeatRoster.Freeze | server/game_runtime/_roster.py:171-185 | freezing succeeds exactly on a total map that was never frozen, and returns it |
| Roster.SeatRoster.CloseUnstarted | server/game_runtime/_roster.py:187-191 | closing an unfrozen roster empties both indexes |
| Roster.OccupyKeeps | server/game_runtime/_roster.py:84-108 | the user then owns exactly that seat, every other user and bot keeps theirs, a refusal changes nothing, and refusals are exactly a frozen roster or a seat taken by another |
| Roster.VacateKeeps | server/game_runtime/_roster.py:110-124 | vacating succeeds exactly for the owner before the start and touches no other seat |
| Room.GameRoom.OccupySeat | server/game_runtime/_room.py:104-129 | occupying reaches the roster only in the lobby |
| Room.GameRoom.VacateSeat | server/game_runtime/_room.py:131-156 | vacating is refused outside the lobby and otherwise answers and does what the roster does |
| Room.GameRoom.ConnectSeat | server/game_runtime/_room.py:188-216 | connecting up to its await: only the matching human, and at most one freeze creates the session |
| Room.GameRoom.SessionStarted | server/game_runtime/_room.py:216-219 | the rest of connecting activates the room whatever happened meanwhile |
| Room.GameRoom.CloseRoom | server/game_runtime/_room.py:279-292 | closing in each lifecycle state, including the assertion that fails |
| Room.AtMostOneSession | server/game_runtime/_room.py:188-221 | over all interleavings a room creates at most one session, from a total roster never changed afterwards, and its seats and users stay in one-to-one correspondence |
| Room.ConnectStartsIff | server/game_runtime/_room.py:188-216 | connecting creates a session exactly in the lobby, for the seat's user, on a total roster never frozen, and otherwise changes nothing |
| Room.CloseFaultsIff | server/game_runtime/_room.py:279-291 | the assertion in close fails exactly in a lobby whose roster is frozen |
| Room.ClosedForGoodIff | server/game_runtime/_room.py:210-219 | a closed room stays closed in all runs if and only if no connect awaited its session |
| Room.CloseDuringStartReopens | server/game_runtime/_room.py:188-221 | the run in which a room is closed during a start and is active afterwards |
| PlaybackQueue.StatePlaybackQueue.ScheduleNext | frontend/game/engine/state-playback-queue.ts:37-63 | when the timer is armed and how long it waits |
| PlaybackQueue.StatePlaybackQueue.Push | frontend/game/engine/state-playback-queue.ts:17-21 | enqueuing appends before anything is called back |
| PlaybackQueue.StatePlaybackQueue.ClearAll | frontend/game/engine/state-playback-queue.ts:23-31 | clearing forgets the messages, the last time and the timer |
| PlaybackQueue.StatePlaybackQueue.TimerFires | frontend/game/engine/state-playback-queue.ts:50-59 | the timer takes the oldest message and records the time before anything is called back |
| PlaybackQueue.PlaysInOrderAtPace | frontend/game/engine/state-playback-queue.ts:17-63 | in every run, however callbacks re-enter: since the last clear the delivered messages are the first enqueued ones, each at least its frame time after the one before, preceded by at most one stray; every message is accounted for exactly without the stray; and outside callbacks a timer is armed exactly when something is pending |
| PlaybackQueue.TimerIsDueExactly | frontend/game/engine/state-playback-queue.ts:37-63 | in every run the timer is armed for the later of now and the last rendering plus the frame time, and at once if nothing was rendered since the last clear; nothing else arms it |
| PlaybackQueue.DeliveryIsAccountedForIff | frontend/game/engine/state-playback-queue.ts:50-63 | a delivery keeps delivered and pending equal to enqueued if and only if its own notification did not clear the queue |
| PlaybackQueue.ClearedMessageIsDelivered | frontend/game/engine/state-playback-queue.ts:50-63 | the run in which a cleared message is delivered |
| Writer.WriterState.PutNowait | server/training_events/writer.py:73-77 | the bounded put refuses exactly when the queue is full, a step of the machine for an event and a stop alike |
| Writer.WriterState.Offer | server/training_events/writer.py:73-77 | the offered event is queued last if there is room and otherwise counted as dropped, which is the machine's offer |
| Writer.WriterState.GetItem | server/training_events/writer.py:102-111 | the blocking get or its timeout is the machine's get |
| Writer.WriterState.DrainQueue | server/training_events/writer.py:112-125 | the inner loop moves queued events to the batch in order, losing none, and a batch is due exactly when the source writes one |
| Writer.WriterState.WriteBatch | server/training_events/writer.py:133-162 | a committed batch logs its events in order after one row for all counted drops; a rolled-back one logs nothing and counts its events and those drops |
| Writer.WriterState.Turn | server/training_events/writer.py:101-127 | one turn of the thread's loop takes the object from one state of the machine to the specified next one |
| Writer.TurnIsARun | server/training_events/writer.py:101-127 | such a turn is a run of the machine, so everything proved of all runs holds of the object |
| Writer.Conservation | server/training_events/writer.py:93-172 | over every interleaving the events offered are those queued, in hand, committed, counted and reported as dropped |
| Writer.LogKeepsQueueOrder | server/training_events/writer.py:93-162 | committed events are a subsequence of queue order, missing only whole batches, each of 1 to 256 events |
| Writer.TurnWithoutStop | server/training_events/writer.py:101-127 | a turn that meets no stop writes what is pending after a timeout, writes a full batch when enough is queued, and otherwise only takes what is queued |
| Writer.TurnWithStop | server/training_events/writer.py:101-131 | a turn that meets a stop after some events writes them and ends the thread, leaving what is queued behind it |
| Writer.HaltedHoldsNothing | server/training_events/writer.py:79-131 | the halted thread holds no event and has taken everything queued before the first stop; it has taken later events only if it found the stop at its blocking get, and then at most one batch |
| Writer.NothingIsLostIff | server/training_events/writer.py:79-172 | at the halt every offered event is logged or reported if and only if no event is queued, no drop is counted and no refusal is about to be counted |
| Writer.QuietStopEmptiesTheQueue | server/training_events/writer.py:79-131 | if nothing is queued after the stop the halted thread leaves the queue empty |
| Writer.RolledBackLastBatchIsLost | server/training_events/writer.py:121-162 | the run in which an event queued before the stop is neither logged nor reported |
| Writer.LateEventIsWritten | server/training_events/writer.py:102-131 | the run in which an event queued after the stop is still written |
| LogPaging.PageIsASlice | server/training_events/queries.py:67-122 | a history page is the newest records below the cursor in log order, with a cursor exactly when older ones are left; refused exactly for a bad cursor or limit |
| LogPaging.CursorIsStable | server/training_events/queries.py:95-103 | records appended later do not move a cursor |
| LogPaging.FollowingTheCursorEnumeratesTheLog | server/training_events/queries.py:85-122 | following the cursor ends after exactly as many pages as needed and yields each record of the first moment once and in order, whatever is appended meanwhile |
| LogPaging.TailIsStepwise | server/training_events/queries.py:125-163 | a tail batch is what reading one record at a time from a growing log yields |
| LogPaging.TailIsTheOldestNewer | server/training_events/queries.py:125-163 | a tail query finds the oldest newer records, as many as there are or the limit, and is refused exactly for a negative sequence or a limit outside 1 to 1000 |
| LogMerge.SortedUnique | frontend/training-dashboard/logs-domain.ts:233-239 | the map-filling loop computes the specified merge |
| LogMerge.MergeSortsSurvivors | frontend/training-dashboard/logs-domain.ts:233-239 | the merge is strictly ascending and holds exactly the last record of each sequence |
| LogMerge.MergeTouching | frontend/training-dashboard/logs-domain.ts:130-133 | touching or overlapping stretches of a log merge into one stretch |
| LogsDomain.LogsDomain.Refresh | frontend/training-dashboard/logs-domain.ts:91-96 | refreshing drops the stream and remembers the generation |
| LogsDomain.LogsDomain.RefreshDone | frontend/training-dashboard/logs-domain.ts:97-111 | a current page replaces the window and resumes the stream; a stale or failed one changes nothing |
| LogsDomain.LogsDomain.LoadOlder | frontend/training-dashboard/logs-domain.ts:114-120 | an older page is asked for exactly when none is awaited and a cursor is left |
| LogsDomain.LogsDomain.OlderDone | frontend/training-dashboard/logs-domain.ts:121-146 | a current page of the same store is merged under the memory limit, one of another store replaces the window, and the guard is released in every case |
| LogsDomain.LogsDomain.Receive | frontend/training-dashboard/logs-domain.ts:188-195 | a record already held is ignored, another is merged under the memory limit |
| LogsDomain.LogsDomain.ReceiveReplacement | frontend/training-dashboard/logs-domain.ts:178-187 | a replaced store empties the window and starts a refresh of a new generation |
| LogsDomain.LogsDomain.Reset | frontend/training-dashboard/logs-domain.ts:77-89 | a reset invalidates every response under way |
| LogsDomain.LogsDomain.Activate | frontend/training-dashboard/logs-domain.ts:68-71 | an empty window is refreshed, any other resumes its stream |
| LogsDomain.MergingAPageKeepsTheWindowIff | frontend/training-dashboard/logs-domain.ts:130-133 | merging an older page leaves no gap if and only if the page reaches the window or the limit drops it |
| LogsDomain.ReceivingTheNextExtendsTheWindow | frontend/training-dashboard/logs-domain.ts:188-195 | the next record extends the window, dropping the oldest at the limit |
| LogsDomain.ReceivingBeyondTheNextLeavesAGap | frontend/training-dashboard/logs-domain.ts:188-195 | a record beyond the next one always leaves a gap, so the order of the tail matters |
| LogWindow.StepKeeps | frontend/training-dashboard/logs-domain.ts:68-198 | every step of the reader, the server and the network keeps the window invariant unless a refresh overlaps an older load or a record of an abandoned store arrives |
| LogWindow.WindowHasNoGaps | frontend/training-dashboard/logs-domain.ts:91-198 | in every run without those two the window is ascending, within the limit, consecutive records of the one store it names, and its cursor continues it downwards or the limit has cut it |
| LogWindow.StaleAnswersAreIgnored | frontend/training-dashboard/logs-domain.ts:77-146 | a reset or a replacement begins a new generation, and an answer to a request of another one leaves window, store, cursor and stream alone |
| LogWindow.ForeignRecordBreaksTheWindowUnless | frontend/training-dashboard/logs-domain.ts:188-195 | a record that is not of the window's log breaks the window if and only if its sequence is new and the full window does not drop it |
| LogGaps.MergedPageTearsIff | frontend/training-dashboard/logs-domain.ts:121-137 | merging any page of the window's store, wherever it lies, leaves a gap if and only if a record lies between the two and the full window does not drop the page |
| LogGaps.ReceivedRecordTearsIff | frontend/training-dashboard/logs-domain.ts:188-195 | receiving any record, of whatever store, leaves a gap if and only if it is new, not dropped by a full window, and no neighbour of the window in its log |
| LogGaps.StepTearsIff | frontend/training-dashboard/logs-domain.ts:68-198 | from a window without a gap, after any history, a step leaves a gap if and only if it merges such a page or record |
| LogGaps.WindowIsWholeIff | frontend/training-dashboard/logs-domain.ts:68-198 | in every run without any restriction the window is strictly ascending and within the limit, and it has no gap throughout if and only if no step is of that kind |
| LogGaps.OneOlderRequest | frontend/training-dashboard/logs-domain.ts:114-146 | in every run older records may be asked for exactly when none are awaited and a cursor is left |
| LogGaps.CalmRunsNeverTear | frontend/training-dashboard/logs-domain.ts:68-198 | no step is of that kind unless a refresh overlaps an older load or a record of another store arrives |
| LogGaps.RefreshDuringLoadOlderLeavesAGap | frontend/training-dashboard/logs-domain.ts:91-137 | the run from an opened page of six hundred records in which an overlapping refresh leaves a gap |
| LogGaps.ForeignRecordArrives | frontend/training-dashboard/logs-domain.ts:121-195 | the run from an opened page in which a record of the replaced store enters the window of the new one |
| MetricBuckets.BucketOf | server/training_metrics/queries.py:556-558 | item i falls into bucket i*count/size, which is always below count: the clamp never fires |
| MetricBuckets.BucketGroups | server/training_metrics/queries.py:549-559 | the distributing loop computes consecutive slices |
| MetricBuckets.GroupsPartition | server/training_metrics/queries.py:549-559 | the buckets concatenate to the input, none is empty, and sizes differ by at most one |
| MetricStatistics.MeanIsWithin | server/training_metrics/queries.py:653-656 | a mean lies within its sample's range and is missing only for no sample |
| MetricStatistics.MeanIsWeighted | server/training_metrics/queries.py:653-656 | the mean of one number is that number and the mean of two samples together is that of their means weighted by size |
| MetricStatistics.MeanIgnoresOrder | server/training_metrics/queries.py:653-656 | rearranging the sample keeps its mean |
| MetricStatistics.PercentileCoversTheSample | server/training_metrics/queries.py:659-663 | the percentile is a sample, and at least 95% of the samples do not exceed it |
| MetricStatistics.PercentileIsNearestRank | server/training_metrics/queries.py:659-663 | fewer samples than the rank lie below the percentile, and the rank is 95% of the sample rounded up |
| MetricGroups.GroupBy | server/training_metrics/queries.py:465-469 | the grouping loop keeps the events of each key in order and drops those without one |
| MetricGroups.KeptOfBoth | server/training_metrics/queries.py:465-469 | a key's events are kept in their order |
| MetricGroups.OrdinalOfAnEvent | server/training_metrics/queries.py:465-469 | which update and which process an event belongs to |
| MetricGroups.GatherCount | server/training_metrics/queries.py:476-480 | gathering over distinct keys takes each event of those keys exactly once |
| Metrics.ComputeStatistics | server/training_metrics/queries.py:484-499 | each charted statistic is computed from its own source field |
| Metrics.InferencePoints | server/training_metrics/queries.py:458-508 | one point a bucket of updates, made of exactly the batches of those updates; both ordinal assertions hold |
| Metrics.EveryBatchIsChartedOnce | server/training_metrics/queries.py:465-480 | every batch with an ordinal is charted by exactly one point, as often as it occurs, and no other batch is |
| Metrics.InferenceUpdatesIncrease | server/training_metrics/queries.py:470-483 | the points' updates strictly increase up to the newest ordinal |
| Metrics.StatisticsDescribeTheSample | server/training_metrics/queries.py:484-499 | every average is in its range, every upper statistic is the nearest-rank percentile, and each is missing only without numbers |
| Metrics.AveragesCombine | server/training_metrics/queries.py:484-499 | a charted average over two lists of batches is that of their averages weighted by how many have a number, and over one batch it is the batch's number |
| Metrics.ChartedGauges | server/training_metrics/queries.py:485-499 | which fields are charted and which of them with a percentile |
| Metrics.PointIsOfItsEvent | server/training_metrics/queries.py:589-604 | a point lies at its event, so many seconds after the start of the run and never before it |
| Metrics.TotalsCombine | server/training_metrics/queries.py:530-537 | a process total over two groups is the sum of theirs, and over one event its number or zero |
| Metrics.ProcessPoints | server/training_metrics/queries.py:511-546 | one point a process in order of index, totalled over its own events; the ordinal assertion holds |
| Metrics.CountersAreConserved | server/training_metrics/queries.py:511-546 | a counter summed over the points is its sum over all events with a process and an ordinal |
| Metrics.ChartUpdates | server/training_metrics/queries.py:403-422 | totals as of the latest update, rates as their process rates, any other field averaged |
| Metrics.AveragedFieldsCombine | server/training_metrics/queries.py:403-422 | an averaged field over two groups of updates is that of theirs weighted by how many have a number, and over one update it is the update's own |
| Metrics.PlainFieldsAreLatest | server/training_metrics/queries.py:403-422 | a field without numbers is charted as the latest update has it |
| Metrics.UpdatePoints | server/training_metrics/queries.py:394-431 | one point a bucket of updates, at its last event |
| Metrics.UpdatesIncrease | server/training_metrics/queries.py:135-140 | the charted updates strictly increase and end at the number of updates in the run |
| PidFile.WritePayload | server/training_control/process_inspection.py:151-156 | however the writes are split, the whole payload is written |
| PidFile.WrittenPidIsRead | server/training_control/process_inspection.py:102-129 | what is written for a PID is read back as that PID, up to the longest file accepted |
| PidFile.ReadPidIff | server/training_control/process_inspection.py:102-129 | which files name a PID: at most 64 ASCII characters of a positive numeral, among blanks or not |
| ProcessControl.TrainingProcessControl.Inspect | server/training_control/process_inspection.py:73-95 | the live process the file names, if any |
| ProcessControl.TrainingProcessControl.RemoveIfMatches | server/training_control/process_inspection.py:176-195 | the file is removed only if it names the expected PID |
| ProcessControl.TrainingProcessControl.Resume | server/training_control/process_control.py:130-178 | resuming is refused while the named process exists |
| ProcessControl.TrainingProcessControl.Publish | server/training_control/process_control.py:181-185 | the new PID is published with its reaper, or its process is killed |
| ProcessControl.TrainingProcessControl.Stop | server/training_control/process_control.py:194-224 | stopping removes a stale file or turns to waiting for the signalled process |
| ProcessControl.TrainingProcessControl.StopPoll | server/training_control/process_control.py:225-264 | one turn of the wait: clean up after the exit, or escalate once, or give up |
| ProcessControl.TrainingProcessControl.Reap | server/training_control/process_control.py:326-337 | the reaper's clean-up under the lock |
| ProcessControl.OneLiveProcess | server/training_control/process_control.py:130-264 | over every interleaving of resume, stop, reap and exits, whenever the lock is free a live process of the run is the one the file names, and never are two alive |
| ProcessControl.CleanedStaysClean | server/training_control/process_control.py:326-337 | once a reaper has cleaned up, its process is gone and the file never names it again |
| ProcessControl.ReaperSparesTheNewer | server/training_control/process_control.py:326-337 | an old process's reaper never removes a newer process's PID |
| ProcessControl.LiveProcessBlocksResume | server/training_control/process_control.py:141-151 | while a process of the run is alive a resume is refused and changes nothing |
| ProcessControl.ResumeStartsAlone | server/training_control/process_control.py:141-171 | a resume that is not refused starts from no live process |
| ProcessControl.ResumeStartsIff | server/training_control/process_control.py:141-171 | resume starts a process exactly if the file names none, one that is gone, or an exited one the inspection misses, and otherwise changes nothing |
| ProcessControl.AcceptedUntilPublished | server/training_control/process_control.py:141-264 | once stop has seen the exit, or the process the file names has been reaped, every resume is accepted until another process is published, even if removing the file failed |
| ProcessControl.StopWaitsIff | server/training_control/process_control.py:204-224 | stop waits exactly for the process the inspection finds and SIGTERM reaches; when the file is removed instead |
| ProcessControl.StopEscalatesOnce | server/training_control/process_control.py:225-264 | the first timeout turns to SIGKILL if that works, the second gives up, and an exit ends the wait |
| ProcessControl.SpawnedIsPublished | server/training_control/process_control.py:155-185 | the created process is published with a reaper, or killed with the file as it was |
| ProcessControl.EveryChildIsAttended | server/training_control/process_control.py:155-185 | in every run a process that was started and is not gone has its reaper or is held under the lock |
| ProcessControl.StoppedMeansDead | server/training_control/process_control.py:225-264 | when stop sees the exit, no process of the run is alive and the file is removed unless removing fails |
| ShellQuoting.QuotingRoundTrips | frontend/training-dashboard/process-domain.ts:106-111 | for both quoting functions and every argument list, reading the joined words by the shell's rules gives back exactly the list |
| ShellQuoting.ScanQuoted | frontend/training-dashboard/fields.ts:590-593 | one quoted word is read as the word it quotes |
| ShellQuoting.ShownAsIsIff | frontend/training-dashboard/fields.ts:590-593 | a word is shown without quotes exactly when it is not empty and all its characters are bare |
| ShellQuoting.ArgvStarts | frontend/training-dashboard/fields.ts:518-533 | the program, run, command and checkpoint the preview begins with |
| ShellQuoting.FieldsInOrder | frontend/training-dashboard/fields.ts:534-542 | the fields' arguments follow in the fields' order |
| ShellQuoting.CommandPreview | frontend/training-dashboard/fields.ts:512-544 | a shell reads the preview as exactly the arguments of the request; only a missing checkpoint is refused |
| ManifestNames.ManagedIffWritten | server/training_artifacts/catalog.py:416-428 | a name is managed as update n if and only if n is positive and the name is the one update n is saved under, whatever other decimal digits Python accepts |
| ManifestNames.ManagedNamesAreThePattern | server/training/contracts.py:12-14 | the managed names and "latest.json" are exactly the language of the request pattern |
| ManifestNames.ListingOrder | server/training_artifacts/catalog.py:441-447 | sorted manifests list latest at most once and first, then strictly descending updates, then other names in order |
| Decimal.CanonicalIsWritten | server/training_artifacts/catalog.py:422-426 | a numeral without a leading zero is the one its value is formatted as |

## Left out

- Card play, bidding, scoring, deal and stirring: the rules inside a round are a parameter of `Game`, as are the observations of a round.
- HTTP, WebSocket, SSE framing, pydantic validation and decoding, and SQL text: a table is a sequence of records with increasing keys, a transaction either takes effect or not.
- `RemoteCommand.to_domain`, `from_domain` and the card-shape validator: commands are opaque to the protocol.
- `RemoteSessionRegistry.clear` and shutdown of remote sessions: no run contains them; session ids are distinct, as random ones of 24 bytes are taken to be, and their length check is left out.
- RemoteRefinement.RemoteRefinesLocal: states the refinement for runs in which server decisions and the factory succeed, the client does not give up and no request overtakes a waiter; a give-up after which the client asks nothing more is `RemoteRefinement.AfterGivingUp`, and the failures outside are stated exactly in RemoteSafety.
- RemoteRetry.RequestWithRetry: time is exact and real-valued and a failed attempt lasts a positive minimum; the network and the random source are parameters.
- Session close and cancellation of player tasks, logging, and the decode of commands, whose result is a parameter.
- `HumanPlayer` and its transports: a human seat is an environment that posts any message and drains its channel.
- Writer: serialization of an event succeeds, opening the store succeeds, and commit or rollback is one step.
- LogWindow.WindowHasNoGaps: excludes the two interleavings named under "Where a promise fails"; in the runs that contain them `LogGaps.WindowIsWholeIff` decides the window's order, length and gaps, and the cursor is not described. The run directory stays selected; rendering and auto-follow are not part of this model.
- Initialization.EveryScheduleInitializes: the scheduler does not serve while a bot that has not reported itself has a view to take; once a policy has reported a failure nothing is claimed.
- FailureReports.SecondReportFiresIff: is about four bots; with human seats, whose channels may stay full, only `FailureReports.OneReportNeverFires` is stated.
- Metrics: arithmetic is over the reals and 0.95 is 19/20; `_event_points`, the summary and the selection of recent and pending rollouts are not modelled; `batch_size_avg` and `fill_ratio_avg` keep their meaning without being renamed.
- ProcessControl.OneLiveProcess: no PID is reused, nothing else writes the PID file, a process leads its own group alone, and requests are not cancelled between creating a process and publishing it; `initialize` and `watch` are not modelled.
- PidFile: bytes are characters and the file system is reduced to whether an operation succeeds.
- ShellQuoting: the reader refuses what sections 2.2.2, 2.2.3 and 2.3 alone do not decide (expansions, operators, comments); reserved words and assignments in command position are not considered. Field flags are required to be bare words, as the form's flags are.
- `initCommandPreview`'s fixed suffix and the form handling around the previews.
- Room: a human's connect and disconnect on the transport, the registry of rooms, and the session's own closing.
- `read_checkpoint_catalog`, references and orphans: a grouping by key that would only add easy members.
- PlaybackQueue: the caught-up flag reported to the listener; the clock is positive, as `performance.now` is after loading.
- `ws-client.ts`, `checkpoints-domain.ts`, charts, lobby and routing.
