# LocalPilot verification models

Dafny models of the parts of LocalPilot whose promises hold over whole runs: the paste
heuristic of the terminal, the hosts of a shared session (device requests, server starts,
pairing, paired devices), the recovery of a paused run, permission asks, pair sessions and the
embedding server's lifecycle; and of its trickier pieces of arithmetic and scanning. Check
everything with `dafny verify dfyconfig.toml`.

Each module models one component and depends on no other but `Options`. Code that updates
state in place is a class with the same fields; its methods are specified by functions on the
state as a value, and the theorems are about every run of those functions: any sequence of
keys, ticks, answers, failures and steps of other tasks. A `Step` function lists what can
happen, and `Run` applies a list of events. Where two tasks share state, each of their steps
is atomic. Time is a natural number.

| module | component |
|---|---|
| `KeyInput` | typing, unbracketed pastes and submits, key by key |
| `RemoteRequests` | device requests on a shared session: taken, queued, steered, settled |
| `ServerStarts` | the start choice, its server starts and the starts it leaves behind |
| `Pairing` | a pairing attempt, its tasks, and the host that shows and closes its code |
| `Devices` | the device list, its one worker, and revokes |
| `Calendar`, `ShortIds` | dates and short identifiers in the devices view |
| `Template`, `Agents` | prompt placeholders, and which agent definition takes effect |
| `Resume` | waiting out a pause, taking steps, and the recovery record |
| `Asks` | permission asks answered at the keyboard or by a device |
| `PairSessions` | building, registering, hosting, trusting and closing a pair |
| `Embedding` | who starts and stops the embedding server |
| `ContextWindow`, `Throttle`, `Incognito` | the input budget, ingest notices, the incognito report |

## Where the code does not meet its description

The code is modelled as it is. For each of these the exact condition is proved, and an input
at which the description fails is given.

- A server start left behind by a cancelled choice is meant to be reported once when it ends.
  Only the last ending is remembered (`remote_server_start.rs:77-86`), so another start that
  ends before the next tick leaves the first one unreported for good:
  `ServerStarts.NothingLostIffNeverOverwritten`, `AnotherStartCanLoseIt`.
- A cancelled or replaced choice is meant to give its intent up, so that a probe still out
  can no longer act for it. It does not while the session is not owned; a hand-over that is
  prepared and given up makes the intent current again:
  `ServerStarts.CancelledIntentReturnsIff`, `SuspensionIsReached`.
- `Cancel`, drawn while a code was being made and chosen after the attempt's tasks had given
  up unconfirmed, sets the attempt to closing with no task left to settle it. It then stays
  closing, and no other attempt can be created: `Pairing.StrandedOnlyByALateCancel`,
  `StrandedForGood`, `ALateCancelHappens`.
- A code is offered before its attempt turns active, and the view takes it after reading the
  phase. Taken in between, it is dropped, and the attempt is active behind a view that never
  gets its code: `Pairing.ACodeReachesItsViewIff`, `ALostCodeNeverShows`, `ACodeCanBeLost`.
- A hidden attempt's ending is meant to be told. Reopening pairing before the next tick, or
  asking for a new code, lets it go untold: `Pairing.EndingIsToldUnlessDropped`,
  `ReopeningCanDropAnEnding`, `AskingAgainCanDropAnEnding`. A paired device is still reported
  to the registry's followers.
- The wait for a paused run is described as bounded by the maximum wait. The time waited is a
  saturating subtraction, so it stands still while the clock is behind the pause, and the wait
  is bounded by the deadline instead: `Resume.MeasureFallsIffClockPastPause`,
  `ClockBehindThePauseWaitsLonger`, `WaitIsBounded`.
- A newer pause is said never to be erased. It is, if its bytes repeat the old record's, which
  takes a saturated attempt count: `Resume.NewerPauseErasedIffSameBytes`,
  `ANewerPauseCanBeErased`, `NewerPauseIsKept`.
- An approver that saw a device's answer through the registry reads it back from the registry's
  memory of 256 endings; if 256 other asks end in between it denies what was allowed:
  `Asks.ApproverReadsTheFirstAnswer`, `AForgottenYesIsDenied`.
- The short identifier width is said to be at least 4. It is less if and only if an identifier
  is listed twice and all are shorter than 4: `ShortIds.ShortIdWidth`, `ShortDuplicate`.
- A quiet incognito report says that no files were created. Below `.git` it knows only the net
  growth: `Incognito.QuietIsExact`, `QuietCanHideACreatedFile`.

Rendering a template twice is not promised to be stable, and depends on the bound values:
`Template.RenderingIsStableIff`.

## Model

| member | source | states |
|---|---|---|
| `KeyInput.PasteBurst.Observe` | crates/localpilot-cli/src/key_input.rs:140-214 | The verdict and the new staged text, window, confirmation and CR flag for one key |
| `KeyInput.PasteBurst.Push` | crates/localpilot-cli/src/key_input.rs:118-131 | Staged text grows by the key, CR and CRLF becoming one LF |
| `KeyInput.PasteBurst.FlushIfIdle` | crates/localpilot-cli/src/key_input.rs:80-86 | Past the window everything staged comes out and the burst ends; within it nothing happens |
| `KeyInput.PasteBurst.FlushPending` | crates/localpilot-cli/src/key_input.rs:91-93 | Everything staged comes out and the burst ends |
| `KeyInput.PasteBurst.TakeText` | crates/localpilot-cli/src/key_input.rs:98-100 | The staged text once, leaving the burst open |
| `KeyInput.PasteBurst.EndAndTake` | crates/localpilot-cli/src/key_input.rs:111-114 | The staged text once, with the burst over |
| `KeyInput.PasteBurst.NoteBracketedPaste` | crates/localpilot-cli/src/key_input.rs:68-71 | What was staged comes out and the heuristic is retired |
| `KeyInput.Conservation` | crates/localpilot-cli/src/key_input.rs:53-215 | Over every run: what came out followed by what is staged is exactly the stream of passed keys and absorbed characters with clean line ends |
| `KeyInput.RunKeepsInv` | crates/localpilot-cli/src/key_input.rs:45-51 | Over every run staged text, a confirmation and a pending CR exist only inside a window, and none after a bracketed paste |
| `KeyInput.StagedTextIsDelivered` | crates/localpilot-cli/src/key_input.rs:80-86 | After any run everything staged comes out at the first idle check past the window |
| `KeyInput.NothingIsFlushedWithinTheWindow` | crates/localpilot-cli/src/key_input.rs:80-86 | An idle check within the window takes nothing and changes nothing |
| `KeyInput.EndingsHandOver` | crates/localpilot-cli/src/key_input.rs:91-114 | Each way to end a burst hands over all that was staged and leaves nothing of it |
| `KeyInput.BracketedRetiresTheHeuristic` | crates/localpilot-cli/src/key_input.rs:59-71 | After a bracketed paste every key of every run passes unchanged and nothing is staged |
| `KeyInput.TypingIsNeverAPaste` | crates/localpilot-cli/src/key_input.rs:140-150 | Keys with nothing queued behind any of them all pass, unchanged and at once |
| `KeyInput.CommandKeysPass` | crates/localpilot-cli/src/key_input.rs:152-159 | A key of any other code, or with any other modifier, always passes and ends the burst, with what was staged |
| `KeyInput.TakenWholeIffPasteShaped` | crates/localpilot-cli/src/key_input.rs:140-214 | Over real keys, characters and Enter with at most Shift: a run of them is taken whole if and only if every key reads as paste content by queueing, gaps and characters alone |
| `KeyInput.TextKeysType` | crates/localpilot-cli/src/key_input.rs:236-246 | What a text key contributes when taken: its character, and a line feed for Enter |
| `KeyInput.LinesAreClean` | crates/localpilot-cli/src/key_input.rs:118-131 | The text of taken keys is the reference reading of what was typed: every CR, CRLF and Enter one LF, everything else unchanged |
| `KeyInput.ChunkedPasteIsOneText` | crates/localpilot-cli/src/key_input.rs:140-214 | A paste in chunks passes no key and comes out as the text typed, Enter as a line feed, with CR and CRLF as LF |
| `KeyInput.SubmitAfterPastePasses` | crates/localpilot-cli/src/key_input.rs:161-192 | An Enter after a delivered paste, with nothing queued, submits |
| `KeyInput.QueueDrainedMeansDelivered` | crates/localpilot-cli/src/key_input.rs:196-209 | A taken key with nothing queued behind it leaves nothing staged |
| `RemoteRequests.RemoteSession.Settle` | crates/localpilot-cli/src/fullscreen_remote.rs:50-56 | Only the first settlement of a request is told to its device |
| `RemoteRequests.RemoteSession.Drop` | crates/localpilot-cli/src/fullscreen_remote.rs:58-64 | The last owner to go settles an unsettled request as not run |
| `RemoteRequests.RemoteSession.TakePrompt` | crates/localpilot-cli/src/fullscreen_remote.rs:465-480 | A prompt gets a second owner of its request, or the second owner goes again |
| `RemoteRequests.RemoteSession.TakeIdleRequest` | crates/localpilot-cli/src/fullscreen_remote.rs:482-555 | One request taken while idle: work comes out if and only if it is allowed and is a prompt with an item, not a steer, or a compaction; any other is told its one ending at once |
| `RemoteRequests.RemoteSession.IdleTick` | crates/localpilot-cli/src/fullscreen_remote.rs:428-455 | At most eight requests, up to the first that asks for work |
| `RemoteRequests.RemoteSession.TakeBusyRequest` | crates/localpilot-cli/src/fullscreen_remote.rs:572-632 | What one request taken while busy does to its device and the queue |
| `RemoteRequests.RemoteSession.BusyTick` | crates/localpilot-cli/src/fullscreen_remote.rs:560-632 | Steers already consumed are released, then at most eight requests are taken |
| `RemoteRequests.IdleRequestsGetTheirDue` | crates/localpilot-cli/src/fullscreen_remote.rs:428-555 | An idle tick, from the requests alone: a prompt that may run comes next under its own request, a compaction takes the slot, either ends the tick; each other request is told Done if it is an allowed Clear, or a rename or effort that succeeded, and Rejected otherwise |
| `RemoteRequests.IdleCountStopsAtWork` | crates/localpilot-cli/src/fullscreen_remote.rs:428-455 | A tick takes up to eight requests, stops right behind one that starts work, and at no other |
| `RemoteRequests.IdleTakeKeepsOlder` | crates/localpilot-cli/src/fullscreen_remote.rs:482-555 | Taking requests while idle changes no older request but the compaction replaced |
| `RemoteRequests.BusyRequestsGetTheirDue` | crates/localpilot-cli/src/fullscreen_remote.rs:560-632 | A busy tick, from the requests alone: an allowed follow-up with an item is told Queued and joins the queue in order; each other request is told Done if it is an allowed cancel, or an effort that succeeded on a live turn, and Rejected otherwise |
| `RemoteRequests.RemoteSession.ReleaseSteering` | crates/localpilot-cli/src/fullscreen_remote.rs:222-226 | Exactly the steers still pending stay held |
| `RemoteRequests.RemoteSession.Start` | crates/localpilot-cli/src/fullscreen.rs:5017-5030 | A device's queued prompt starts, accepted, only while its device may still have it run; otherwise it is rejected and the next one comes up |
| `RemoteRequests.RemoteSession.Finish` | crates/localpilot-cli/src/fullscreen.rs:5138-5140 | A finished operation lets its request go and the next one comes up |
| `RemoteRequests.RemoteSession.DiscardAll` | crates/localpilot-cli/src/fullscreen.rs:5143-5145 | Leaving empties the queue, dropping each operation in order |
| `RemoteRequests.RemoteSession.PromoteQueued` | crates/localpilot-cli/src/fullscreen.rs:9906-9947 | The prompts at the front of the queue become steers or are rejected, in order, up to the first that cannot |
| `RemoteRequests.RemoteSession.EndCompaction` | crates/localpilot-cli/src/fullscreen.rs:6105-6165 | The device that asked for a compaction hears its result, or that it did not run |
| `RemoteRequests.RemoteSession.StartCompaction` | crates/localpilot-cli/src/fullscreen.rs:6107-6112 | The waiting device goes along with the compaction that starts |
| `RemoteRequests.RemoteSession.RemoveQueued` | crates/localpilot-cli/src/fullscreen_remote.rs:58-74 | A queued operation that goes, wherever it stands, lets its request go |
| `RemoteRequests.RemoteSession.DropHost` | crates/localpilot-cli/src/fullscreen_remote.rs:123-145 | Queue, steers, the running compaction and the waiting one all go, releasing their requests |
| `RemoteRequests.StartingAnswers` | crates/localpilot-cli/src/fullscreen.rs:5017-5030 | A device's prompt that comes up runs and is told Accepted if its device still stands; otherwise it is told Rejected and the next one comes up; no other request is touched |
| `RemoteRequests.LocalOperationsStart` | crates/localpilot-cli/src/fullscreen.rs:5017-5030 | An operation of the terminal's own runs whatever stands |
| `RemoteRequests.FinishingAnswers` | crates/localpilot-cli/src/fullscreen.rs:5138-5140 | A finished operation gives way to the front of the queue and its device hears nothing more |
| `RemoteRequests.ExitingAnswers` | crates/localpilot-cli/src/fullscreen.rs:5143-5145 | Leaving tells each queued device, after Queued, Rejected, once |
| `RemoteRequests.RemovingAnswers` | crates/localpilot-cli/src/fullscreen_remote.rs:58-74 | A removed prompt's device hears Rejected, and nothing else in the queue moves out of order |
| `RemoteRequests.PromotingAnswers` | crates/localpilot-cli/src/fullscreen.rs:9906-9947 | The front prompt becomes the newest steer, its device told Accepted, if it still stands; otherwise its device is told Rejected; then the next one |
| `RemoteRequests.PromotionStops` | crates/localpilot-cli/src/fullscreen.rs:9906-9947 | Promotion passes the terminal's own prompts and stops at the first operation that cannot steer |
| `RemoteRequests.CompactingAnswers` | crates/localpilot-cli/src/fullscreen.rs:6105-6165 | The device of a compaction hears Done for a result and Rejected without one, and nothing else changes |
| `RemoteRequests.CompactionTakesItsDevice` | crates/localpilot-cli/src/fullscreen.rs:6107-6112 | A compaction that begins takes the waiting device along; one under way keeps its own |
| `RemoteRequests.StepKeeps` | crates/localpilot-cli/src/fullscreen_remote.rs:43-121 | Every tick, start, removal, promotion, replacement and exit keeps: one holder a request, counted exactly, and its place says what its device was told |
| `RemoteRequests.TakenInOrder` | crates/localpilot-cli/src/fullscreen_remote.rs:428-455 | Requests are taken in arrival order, none skipped or repeated, at most eight a step |
| `RemoteRequests.EveryRequestSettledOnce` | crates/localpilot-cli/src/fullscreen_remote.rs:43-121 | In every run each device hears at most one ending, exactly one once nobody holds its request, and "queued" only before it |
| `RemoteRequests.RunsOnlyWhatWasAccepted` | crates/localpilot-cli/src/fullscreen_remote.rs:96-104 | Nothing a device asked is running or steering unless it was told it was accepted, and nothing else |
| `RemoteRequests.LeavingSettlesEverything` | crates/localpilot-cli/src/fullscreen_remote.rs:58-64 | When the terminal ends, whatever is queued, running, steering or compacting, every request ever taken is settled and nobody holds one |
| `ServerStarts.ServerStart.Begin` | crates/localpilot-cli/src/remote_server_start.rs:118-137 | One start at a time, each with a number never used before |
| `ServerStarts.RemoteShare.CancelIntent` | crates/localpilot-cli/src/remote_share.rs:483-485 | Every ticket issued so far goes stale |
| `ServerStarts.RemoteShare.Stop` | crates/localpilot-cli/src/remote_share.rs:595-616 | Sharing is off and every ticket issued so far is stale |
| `ServerStarts.AppModel.UpdateChoice` | crates/localpilot-terminal-ui/src/app.rs:1994-2012 | New actions keep the selection on its action, or fall to the last |
| `ServerStarts.StartHost.OpenChoice` | crates/localpilot-cli/src/fullscreen_start.rs:142-175 | The choice opens once, for the current intent, only where it fits the sharing state |
| `ServerStarts.StartHost.Key` | crates/localpilot-cli/src/fullscreen_start.rs:192-264 | Enter acts on the drawn action only while the intent is current; anything else cancels, giving the intent up and watching a running start on |
| `ServerStarts.StartHost.ReportOrphans` | crates/localpilot-cli/src/fullscreen_start.rs:282-304 | Each watched start that ended is told and let go; the others stay, in order |
| `ServerStarts.StartHost.Tick` | crates/localpilot-cli/src/fullscreen_start.rs:282-370 | A stale or replaced choice is retired; a waiting one begins its start; an ended start is acted on |
| `ServerStarts.RunKeepsInv` | crates/localpilot-cli/src/fullscreen_start.rs:119-125 | Over every run the drawn actions are those of the stage and the choice waits only for the latest start |
| `ServerStarts.EveryStartHeldOrActedOnOnce` | crates/localpilot-cli/src/fullscreen_start.rs:192-370 | Over every run each start begun is held exactly once or was acted on exactly once, never both |
| `ServerStarts.WaitedForOutcomeIsNeverLost` | crates/localpilot-cli/src/fullscreen_start.rs:311-370 | The start an open choice waits for is running or its outcome is at hand |
| `ServerStarts.ActsOnlyForACurrentReadyStart` | crates/localpilot-cli/src/fullscreen_start.rs:311-370 | A tick shares or reconnects if and only if the choice is shown, its intent current and its start ready |
| `ServerStarts.RunKeepsTicket` | crates/localpilot-cli/src/remote_share.rs:447-467 | Over every run the open choice's ticket is of the present intent, session and claim, or of an intent that is over |
| `ServerStarts.CancelledIntentReturnsIff` | crates/localpilot-cli/src/fullscreen_start.rs:239-264 | After a cancel the ticket can become current again if and only if its intent stood and its session was not owned at the cancel |
| `ServerStarts.ReplacedIntentReturnsIff` | crates/localpilot-cli/src/fullscreen_start.rs:301-322 | The same for a choice replaced on screen, at the tick that notices |
| `ServerStarts.SuspensionIsReached` | crates/localpilot-cli/src/remote_share.rs:459-467 | Such a moment is reached from a fresh host |
| `ServerStarts.RetryIsNeverSelectedForTheUser` | crates/localpilot-cli/src/fullscreen_start.rs:350-368 | A start that fails or is late offers Retry without selecting it |
| `ServerStarts.LostStep` | crates/localpilot-cli/src/remote_server_start.rs:77-86 | A watched start is lost by one kind of step, another start ending before its own ending was read, and by no other |
| `ServerStarts.NothingLostIffNeverOverwritten` | crates/localpilot-cli/src/fullscreen_start.rs:282-304 | "Reported once when it ends" holds of a run if and only if no such ending overwrites an unreported one |
| `ServerStarts.LostForGood` | crates/localpilot-cli/src/fullscreen_start.rs:282-304 | A lost start is never reported, whatever follows |
| `ServerStarts.OrphanIsReported` | crates/localpilot-cli/src/fullscreen_start.rs:282-304 | A watched start whose ending is remembered is told by the next tick, exactly once |
| `ServerStarts.TicksTell` | crates/localpilot-cli/src/fullscreen_start.rs:282-370 | All a tick tells, in order: that a start let go runs, may run yet or did not start, by its ending; then the cancel of a stale choice, or a server started |
| `ServerStarts.TicksMoveTheChoice` | crates/localpilot-cli/src/fullscreen_start.rs:301-370 | What a tick makes of the open choice: retired, with its intent given up where it stood; begun under the next number once no start runs; finished, failed or late as its own start ended; otherwise as it was |
| `ServerStarts.CancellingGivesUp` | crates/localpilot-cli/src/fullscreen_start.rs:239-264 | A cancel closes the choice, ends a current intent, for a reconnect sharing too, says which, and keeps watch on a start under way |
| `ServerStarts.StartingBegins` | crates/localpilot-cli/src/fullscreen_start.rs:192-237 | Start and Retry begin one start if none runs, wait if one does, and begin nothing for an intent that is over |
| `ServerStarts.ChoicesOpenIff` | crates/localpilot-cli/src/fullscreen_start.rs:142-175 | A choice opens if and only if none is open and the need is the present intent's, with Start selected |
| `ServerStarts.AnotherStartCanLoseIt` | crates/localpilot-cli/src/remote_server_start.rs:118-145 | A concrete run that loses one: a cancelled start ends and another one runs to its end before the next tick |
| `ServerStarts.SuchAMomentIsReached` | crates/localpilot-cli/src/fullscreen_start.rs:192-264 | That run begins at a fresh host |
| `Pairing.PairingAttempt.Set` | crates/localpilot-cli/src/remote_pairing.rs:258-272 | A phase moves on unless the attempt ended; ending empties the code slot |
| `Pairing.PairingAttempt.TakeCode` | crates/localpilot-cli/src/remote_pairing.rs:299-309 | The code at most once, and only while it may still be shown |
| `Pairing.PairingAttempt.Close` | crates/localpilot-cli/src/remote_pairing.rs:419-425 | Hidden at once, with no code left, and settling unless it already ended |
| `Pairing.PairingAttempt.Settle` | crates/localpilot-cli/src/remote_pairing.rs:439-454 | It begins if and only if the attempt is unconfirmed and no task works on it; then the task is the settling one and nothing else changes |
| `Pairing.TaskKeepsInv` | crates/localpilot-cli/src/remote_pairing.rs:525-595 | Every step of an attempt's tasks keeps phase, task and waiting code consistent, and never revives, retires or reoffers |
| `Pairing.PairingHost.OpenPairing` | crates/localpilot-cli/src/fullscreen_pairing.rs:125-138 | An attempt not yet settled is shown again; otherwise it is let go, noted first, and the form opens |
| `Pairing.PairingHost.Create` | crates/localpilot-cli/src/fullscreen_pairing.rs:153-194 | A new attempt with a new number behind a fresh view, its Used report and told state unset |
| `Pairing.PairingHost.HideView` | crates/localpilot-cli/src/fullscreen_pairing.rs:373-403 | The view goes; a live attempt is closed with it, an ended one told and let go, an unconfirmed one kept and said again |
| `Pairing.PairingHost.CloseAttempt` | crates/localpilot-cli/src/fullscreen_pairing.rs:360-368 | The attempt is closed and the code gone from the view, which stays |
| `Pairing.PairingHost.Leave` | crates/localpilot-cli/src/fullscreen_pairing.rs:281-292 | A live attempt is closed in its view; with any other the view goes |
| `Pairing.PairingHost.TellHidden` | crates/localpilot-cli/src/fullscreen_pairing.rs:520-535 | Without a view, an attempt that is over is told and let go, and an unconfirmed one told |
| `Pairing.PairingHost.Release` | crates/localpilot-cli/src/fullscreen_pairing.rs:450-454 | The attempt is let go, a Used ending marked first |
| `Pairing.PairingHost.Refresh` | crates/localpilot-cli/src/fullscreen_pairing.rs:539-605 | The view gets a code only if the phase was read active before the code was taken, with the tasks free to run in between; it is wiped otherwise |
| `Pairing.PairingHost.Choose` | crates/localpilot-cli/src/fullscreen_pairing.rs:294-356 | What each drawn action does to the attempt and the view |
| `Pairing.PairingHost.TakeUsed` | crates/localpilot-cli/src/fullscreen_pairing.rs:438-466 | True exactly when a Used attempt was noted since the last report |
| `Pairing.PairingHost.Tick` | crates/localpilot-cli/src/fullscreen_pairing.rs:484-516 | A stale overlay goes, a live attempt without a view is closed, an ended hidden one is told |
| `Pairing.PairingHost.CloseForDevices` | crates/localpilot-cli/src/fullscreen_pairing.rs:426-434 | No form and no view afterwards; the view's attempt is hidden as if closed |
| `Pairing.RetryingSettles` | crates/localpilot-cli/src/fullscreen_pairing.rs:324-335 | A drawn Retry or Check sets an unconfirmed attempt without a task settling, its phase and number unchanged, and only Hide stays drawn |
| `Pairing.RetryingElseNothing` | crates/localpilot-cli/src/remote_pairing.rs:439-454 | Any other attempt goes on as it was |
| `Pairing.ConcludingEnds` | crates/localpilot-cli/src/remote_pairing.rs:742-790 | One conclusion of a settling task ends the attempt, with no code left |
| `Pairing.StayingUnconfirmed` | crates/localpilot-cli/src/remote_pairing.rs:742-790 | Or it is unconfirmed again with no task, and can be retried |
| `Pairing.AnUnconfirmedAttemptCanBeEnded` | crates/localpilot-cli/src/fullscreen_pairing.rs:324-335 | From every unconfirmed attempt whose view draws Retry or Check a run to each of its endings exists: that choice, and one conclusion |
| `Pairing.TicksDraw` | crates/localpilot-cli/src/fullscreen_pairing.rs:539-605 | Which of the nine actions stand on an open view after a tick, each if and only if the attempt is as it must be for it |
| `Pairing.LiveAttemptsCloseInTheirView` | crates/localpilot-cli/src/fullscreen_pairing.rs:281-292 | Cancel, Close and Escape put a live attempt to closing, hidden for good, in a view with only Hide |
| `Pairing.Hiding` | crates/localpilot-cli/src/fullscreen_pairing.rs:373-403 | Hide takes the view away: a live attempt closes, one that is over is told once and let go, any other kept, an unconfirmed one told again |
| `Pairing.TheDeviceListTakesOver` | crates/localpilot-cli/src/fullscreen_pairing.rs:423-434 | Opening the device list takes form and view away, the view as Hide does; an attempt without a view is left alone |
| `Pairing.LeavingForElsewhere` | crates/localpilot-cli/src/fullscreen_pairing.rs:341-352 | Share and Devices leave as Hide does, and say what comes next |
| `Pairing.AskingAgain` | crates/localpilot-cli/src/fullscreen_pairing.rs:329-340 | Again lets the old attempt go and opens the form |
| `Pairing.OpeningShows` | crates/localpilot-cli/src/fullscreen_pairing.rs:125-138 | Opening shows an attempt that is not over, unchanged, and otherwise the form with no attempt |
| `Pairing.Creating` | crates/localpilot-cli/src/fullscreen_pairing.rs:153-194 | The form makes one new attempt, checking, under the next number, behind a view with only Cancel; without a form or a number nothing |
| `Pairing.StaleOverlaysGo` | crates/localpilot-cli/src/fullscreen_pairing.rs:484-516 | A tick takes an overlay of another session, or one something opened over, says why, and closes its live attempt |
| `Pairing.HiddenTicks` | crates/localpilot-cli/src/fullscreen_pairing.rs:499-535 | Without a view a tick closes what is live, tells what is over and lets it go, tells once what is unconfirmed, and touches nothing else |
| `Pairing.ACodeIsAnnounced` | crates/localpilot-cli/src/remote_pairing.rs:525-595 | The task of a new attempt comes to an active attempt with its one code waiting, for every deadline ahead |
| `Pairing.ACodeIsShown` | crates/localpilot-cli/src/fullscreen_pairing.rs:546-577 | The next tick shows that code under the attempt's number and empties the slot |
| `Pairing.AUsedCodeIsReported` | crates/localpilot-cli/src/fullscreen_pairing.rs:436-466 | A used code is gone at the next tick, sharing and devices are offered, and exactly one report falls due and is made |
| `Pairing.RunKeepsInv` | crates/localpilot-cli/src/fullscreen_pairing.rs:64-85 | Over every run the form and the view never stand together, no attempt waits behind the form, and a shown code is the kept attempt's own and still presented |
| `Pairing.EveryTickIsSafe` | crates/localpilot-cli/src/fullscreen_pairing.rs:484-605 | After every tick no live attempt lacks a view, and a code shown was active and in time when the tick read it, for this session, on a view nothing replaced |
| `Pairing.LiveCodeNeverOutlivesItsView` | crates/localpilot-cli/src/fullscreen_pairing.rs:499-508 | Over every run no live attempt lacks a view, at any moment, unless another hand took the view since the last tick |
| `Pairing.RetiredCodeNeverReturns` | crates/localpilot-cli/src/remote_pairing.rs:312-318 | Once an attempt is retired no later run shows a code of it |
| `Pairing.ClosingRetires` | crates/localpilot-cli/src/fullscreen_pairing.rs:360-403 | Closing the attempt and hiding its view each retire it |
| `Pairing.EndedStaysEnded` | crates/localpilot-cli/src/remote_pairing.rs:97-98 | How an attempt ended never changes |
| `Pairing.ReportsNeverExceedUsedAttempts` | crates/localpilot-cli/src/fullscreen_pairing.rs:438-466 | Over every run: at most one note an attempt, at most one report a note, and a report pending exactly when one is owed |
| `Pairing.PairedDeviceIsAlwaysReported` | crates/localpilot-cli/src/fullscreen_pairing.rs:436-466 | An attempt that ended Used is reported, however it was hidden, told, replaced or let go meanwhile |
| `Pairing.OnlyUsedAttemptsAreNoted` | crates/localpilot-cli/src/fullscreen_pairing.rs:456-466 | Only attempts that ended Used are ever noted |
| `Pairing.StrandedOnlyByALateCancel` | crates/localpilot-cli/src/fullscreen_pairing.rs:360-368 | An attempt is left closing with nothing to settle it by one step, and by that step always: Cancel, drawn earlier, on an unconfirmed attempt with no task |
| `Pairing.StrandedForGood` | crates/localpilot-cli/src/remote_pairing.rs:439-472 | From there no key, tick or task moves it and no other attempt can be created |
| `Pairing.ALateCancelHappens` | crates/localpilot-cli/src/fullscreen_pairing.rs:328-328 | A state reached from a fresh host that is stranded |
| `Pairing.ACodeReachesItsViewIff` | crates/localpilot-cli/src/fullscreen_pairing.rs:546-577 | A waiting code reaches the open view if and only if the phase was read active and in time; on a replaced view it goes on waiting; otherwise it is taken and lost |
| `Pairing.ALostCodeNeverShows` | crates/localpilot-cli/src/remote_pairing.rs:285-309 | After that no run shows a code of that attempt |
| `Pairing.ACodeCanBeLost` | crates/localpilot-cli/src/remote_pairing.rs:682-697 | A state reached from a fresh host in which the attempt is active behind a view without its code |
| `Pairing.EndingIsToldUnlessDropped` | crates/localpilot-cli/src/fullscreen_pairing.rs:405-421 | Only an attempt that is over is let go, and its ending goes untold if and only if reopening pairing or asking for a new code drops it untold |
| `Pairing.ReopeningCanDropAnEnding` | crates/localpilot-cli/src/fullscreen_pairing.rs:125-138 | A state reached from a fresh host from which reopening drops an ending untold |
| `Pairing.AskingAgainCanDropAnEnding` | crates/localpilot-cli/src/fullscreen_pairing.rs:329-340 | The same for a new code asked for after an ending drawn under a dialog |
| `Devices.DevicesController.Refresh` | crates/localpilot-cli/src/remote_devices.rs:482-500 | One read at a time, each with a newer number |
| `Devices.DevicesController.AskRevoke` | crates/localpilot-cli/src/remote_devices.rs:504-543 | A revoke is taken only with the slot free, from a current list, for a revocable device, with a live worker |
| `Devices.DevicesController.TakeListed` | crates/localpilot-cli/src/remote_devices.rs:602-617 | A read is applied only if it is newer than the last one and not before the fence; a flagged second read then starts |
| `Devices.DevicesController.TakeAnswer` | crates/localpilot-cli/src/remote_devices.rs:618-638 | The slot's own answer settles it, moves the fence past every read asked so far and asks for another |
| `Devices.DevicesController.LoseWorker` | crates/localpilot-cli/src/remote_devices.rs:563-598 | With the worker gone its revoke is unknown and answered, its read failed, and no read so far counts as current |
| `Devices.DevicesController.Settle` | crates/localpilot-cli/src/remote_devices.rs:546-554 | Only an answered operation, named by its number, frees the slot |
| `Devices.DevicesHost.Open` | crates/localpilot-cli/src/fullscreen_devices.rs:109-118 | The view opens for a session with no confirmation and a read under way |
| `Devices.DevicesController.Poll` | crates/localpilot-cli/src/remote_devices.rs:558-649 | Every answer is taken, a lost worker settles what it owed, and a late revoke is said to be unknown |
| `Devices.DevicesHost.OpenConfirm` | crates/localpilot-cli/src/fullscreen_devices.rs:205-237 | A confirmation opens only for the selected device as the current list has it |
| `Devices.DevicesHost.Submit` | crates/localpilot-cli/src/fullscreen_devices.rs:240-260 | The device of the open confirmation is revoked |
| `Devices.ASubmitSendsTheConfirmedRow` | crates/localpilot-cli/src/fullscreen_devices.rs:240-260 | A submit sends one revoke, of the row confirmed, if and only if the slot is free, the list current, the row revocable and a worker live or startable; otherwise it changes nothing |
| `Devices.NothingConfirmedNothingSent` | crates/localpilot-cli/src/fullscreen_devices.rs:240-243 | Without an open view or a confirmation a submit changes nothing of the controller |
| `Devices.TheSlotIsOfAConfirmation` | crates/localpilot-cli/src/fullscreen_devices.rs:240-260 | Over every run, the revoke in the slot is of the row that was confirmed at the submit that sent it |
| `Devices.ARevokeNamesItsConfirmation` | crates/localpilot-cli/src/fullscreen_devices.rs:240-260 | Over every run, each revoke on its way names the device that was confirmed at its submit, revocable then |
| `Devices.RefusalsInOrder` | crates/localpilot-cli/src/remote_devices.rs:504-543 | Each refusal of a revoke if and only if it is the first thing in the way |
| `Devices.DevicesHost.Deliver` | crates/localpilot-cli/src/fullscreen_devices.rs:289-342 | A state not told yet is told; an answer told frees the slot, keeping the confirmation only after busy or a failure |
| `Devices.DevicesHost.Render` | crates/localpilot-cli/src/fullscreen_devices.rs:408-438 | A selected device that left the list is dropped with its confirmation; the first row is selected only the first time |
| `Devices.DevicesHost.Tick` | crates/localpilot-cli/src/fullscreen_devices.rs:266-285 | A stale view goes, answers are taken and told, the view is kept current |
| `Devices.TicksTellWhatIsDue` | crates/localpilot-cli/src/fullscreen_devices.rs:287-342 | After any run a tick tells exactly what is due of the revoke in the slot: the answer that came, the loss of its worker, or once that it is late; told as ended it frees the slot, and closes the confirmation unless busy or failed |
| `Devices.ViewsFollowTheirSession` | crates/localpilot-cli/src/fullscreen_devices.rs:266-285 | A tick takes the view, with its confirmation, if and only if its session is no longer the one shown |
| `Devices.TheNewestReadIsShown` | crates/localpilot-cli/src/remote_devices.rs:602-617 | A newest read past the fence, back with no answer beside it, is what is shown; a failed one leaves old rows marked old |
| `Devices.OldReadsShowNothing` | crates/localpilot-cli/src/remote_devices.rs:608-617 | A read overtaken or from before the fence shows nothing |
| `Devices.AnOldListIsReadAgain` | crates/localpilot-cli/src/remote_devices.rs:602-638 | Over every run: a pending read is on its way while its worker lives, and whenever the list shown is from before the last answered revoke such a read is pending, past the fence or with another flagged behind it |
| `Devices.AFlaggedReadFollows` | crates/localpilot-cli/src/remote_devices.rs:602-608 | The newest read back is pending no more; a second one follows if and only if it was flagged |
| `Devices.AnAnswerAsksForANewList` | crates/localpilot-cli/src/remote_devices.rs:618-638 | The answer moves the fence past every read asked so far and asks for a new list, at once or behind the pending read |
| `Devices.ALostWorkerFailsItsRead` | crates/localpilot-cli/src/remote_devices.rs:563-598 | A lost worker's pending read failed, leaving old rows marked old; its revoke is over |
| `Devices.OpeningReads` | crates/localpilot-cli/src/remote_devices.rs:482-500 | Opening the view sends one read with the next number unless one is pending, and says the list failed without a worker |
| `Devices.ConfirmationOpensIff` | crates/localpilot-cli/src/fullscreen_devices.rs:205-237 | The selected row comes up for confirmation, that very row, if and only if the slot is free, the list current and the row revocable |
| `Devices.PickingSelects` | crates/localpilot-cli/src/fullscreen_devices.rs:408-431 | A listed row picked is selected; the first selection is the first row |
| `Devices.ALostRowClosesItsConfirmation` | crates/localpilot-cli/src/fullscreen_devices.rs:408-427 | A selected device no longer listed is let go, and a confirmation for it closed unless its revoke is under way |
| `Devices.EveryRevokeIsToldOnce` | crates/localpilot-cli/src/fullscreen_devices.rs:287-342 | Over every run each revoke holds the slot until it is told as ended, exactly once, and before that at most once as not known yet |
| `Devices.OneRevokeInFlight` | crates/localpilot-cli/src/remote_devices.rs:5-13 | Over every run no two revokes of this terminal are on their way, and none once the slot is free |
| `Devices.RevokesAreAimedFromACurrentList` | crates/localpilot-cli/src/remote_devices.rs:473-478 | Over every run, an event that sends a revoke is a submit over a list that shows the effect of every earlier revoke taken up, with none on its way |
| `Devices.ConfirmationIsFrozen` | crates/localpilot-cli/src/fullscreen_devices.rs:7-8 | No update changes what an open confirmation names |
| `Devices.ConfirmationsWereConfirmable` | crates/localpilot-cli/src/fullscreen_devices.rs:203-237 | A confirmation open after any run was opened for a row that was listed, current and revocable then |
| `Devices.NothingIsSelectedForTheUser` | crates/localpilot-cli/src/fullscreen_devices.rs:74-76 | After a device left the list nothing is selected until the user picks a row |
| `Devices.SelectionIsListed` | crates/localpilot-cli/src/fullscreen_devices.rs:408-431 | A drawn selection names a listed device; a lost one is never replaced by another |
| `Calendar.CivilDateCountsBack` | crates/localpilot-cli/src/fullscreen_devices.rs:541-559 | For every day count the printed date is a Gregorian date since 1970 and counting days back from it gives that count |
| `Calendar.CivilDateInvertsDayNumber` | crates/localpilot-cli/src/fullscreen_devices.rs:541-559 | Every Gregorian date since 1970 is printed for exactly its own day |
| `Calendar.ConsecutiveDays` | crates/localpilot-cli/src/fullscreen_devices.rs:541-559 | Consecutive days print successive dates of the calendar |
| `Calendar.DateOrderIsDayOrder` | crates/localpilot-cli/src/fullscreen_devices.rs:541-559 | Dates are ordered as their days are, both ways |
| `Calendar.UtcNamesTheMinute` | crates/localpilot-cli/src/fullscreen_devices.rs:541-559 | Date, hour and minute name the Unix time exactly, up to its seconds |
| `Calendar.YearOfEra` | crates/localpilot-cli/src/fullscreen_devices.rs:549-549 | The year-of-era quotient picks out exactly the year the day falls in |
| `Calendar.MonthAndDay` | crates/localpilot-cli/src/fullscreen_devices.rs:551-553 | The month arithmetic gives a valid date of the March-based year, with its day of the year |
| `ShortIds.ShortIdWidth` | crates/localpilot-cli/src/fullscreen_devices.rs:561-575 | Distinct ids: the least width of at least 4 that tells all apart, and every larger one does too; otherwise the longest id's length |
| `ShortIds.AllNew` | crates/localpilot-cli/src/fullscreen_status.rs:411-425 | The set scan decides whether all prefixes of that width differ |
| `ShortIds.SeparationGrows` | crates/localpilot-cli/src/fullscreen_devices.rs:565-573 | A width that separates keeps separating when it grows |
| `ShortIds.SeparableIffDistinct` | crates/localpilot-cli/src/fullscreen_devices.rs:565-574 | Some width separates exactly when no id is listed twice |
| `ShortIds.ShortDuplicate` | crates/localpilot-cli/src/fullscreen_devices.rs:561-574 | A list whose width is below the promised 4 |
| `Template.Render` | crates/localpilot-agents/src/template.rs:61-78 | The literal segments of the one segmentation, with each trimmed key's value, and nothing for an unknown key |
| `Template.Placeholders` | crates/localpilot-agents/src/template.rs:81-91 | The trimmed keys of that same segmentation, in order |
| `Template.Validate` | crates/localpilot-agents/src/template.rs:42-56 | Valid if and only if every key of the segmentation is in the vocabulary; otherwise the first that is not |
| `Template.Bindings.With` | crates/localpilot-agents/src/template.rs:26-31 | Binds a vocabulary key and changes no other; any other key is ignored |
| `Template.TrimTakesTheMiddle` | crates/localpilot-agents/src/template.rs:72-72 | Trimming a key takes off exactly the white space around it, whatever stands between |
| `Template.EveryTextHasAMiddle` | crates/localpilot-agents/src/template.rs:72-87 | And every key has that form, so this is what trimming does to each |
| `Template.SegmentIsFaithful` | crates/localpilot-agents/src/template.rs:42-91 | The segmentation unparses to the text, and each placeholder in it is the first that could be read there |
| `Template.CanonicalIsUnique` | crates/localpilot-agents/src/template.rs:42-91 | It is the only such reading of a text |
| `Template.RenderingIsStableIff` | crates/localpilot-agents/src/template.rs:58-78 | Every text renders to one that rendering leaves alone if and only if every bound value does and ends where no placeholder can begin |
| `Template.RenderingIsIdempotent` | crates/localpilot-agents/src/template.rs:58-78 | Values without an opening brace are enough for that |
| `Template.BracesInAValueAreNotStable` | crates/localpilot-agents/src/template.rs:58-78 | A family of values that are not: one that spells an unbound placeholder disappears the second time |
| `Template.ToolsCanSpellWorkspace` | crates/localpilot-agents/src/template.rs:20-36 | Such keys and bindings exist in the vocabulary |
| `Agents.AgentSet.Insert` | crates/localpilot-agents/src/loader.rs:138-156 | A definition takes its name if its scope is of higher precedence; the other one is shadowed |
| `Agents.AgentSet.Load` | crates/localpilot-agents/src/loader.rs:114-134 | Every good file of a directory is inserted in order, every broken one recorded with its reason |
| `Agents.AgentSet.Resolve` | crates/localpilot-agents/src/loader.rs:98-136 | Resolution of every loadable definition, roots in order and files sorted by path, and the failures of the others |
| `Agents.EffectiveIsTheEarliestOfHighestPrecedence` | crates/localpilot-agents/src/loader.rs:138-156 | After any insertions each name's entry is the earliest among those of highest precedence, and only inserted names have one |
| `Agents.NothingIsLost` | crates/localpilot-agents/src/loader.rs:138-156 | Effective and shadowed definitions are together, as a multiset, exactly the inserted ones |
| `Agents.OrderMattersOnlyForTies` | crates/localpilot-agents/src/loader.rs:138-156 | Reordering insertions leaves a name's entry alone if and only if its highest precedence is not tied between different definitions |
| `Agents.OrderOfRootsDoesNotMatter` | crates/localpilot-agents/src/loader.rs:94-97 | However the roots, each scope once, and their listings are ordered, the effective map and the shadowed multiset are the same |
| `Agents.SortFilesSorts` | crates/localpilot-agents/src/loader.rs:108-112 | Sorting puts a directory's files in path order and keeps them all |
| `Agents.ProjectScopesComeFirst` | crates/localpilot-agents/src/loader.rs:33-41 | The scope a name's entry comes from is the first, project before global and own before shared directory, that defines it |
| `Agents.EachFileLoadsOrFails` | crates/localpilot-agents/src/loader.rs:114-134 | Each file of a directory is loaded under its scope or recorded as broken with its reason, never both, never neither |
| `Agents.DiscoveredIsWhatIsListed` | crates/localpilot-agents/src/loader.rs:98-136 | What is loaded is exactly what the directories list and parses, each under its own scope |
| `Agents.FailuresAreTheBrokenFiles` | crates/localpilot-agents/src/loader.rs:114-134 | What is recorded as broken is exactly what they list and does not parse |
| `Resume.NapIsSafe` | crates/localpilot-cli/src/harness_cmd.rs:1558-1575 | A nap is at least a second and passes neither the eligible time, the poll cap nor the time left; there is none exactly when one of them is met |
| `Resume.Waiting.Wait` | crates/localpilot-cli/src/harness_cmd.rs:1480-1549 | A wait that ends does so at the first poll that does not keep waiting, with that poll's decision, having slept the stated naps |
| `Resume.WaitIsBounded` | crates/localpilot-cli/src/harness_cmd.rs:1472-1549 | With a clock that moves on between polls, the wait ends within the seconds left to the deadline, and every poll before its end kept waiting |
| `Resume.StopIsFirst` | crates/localpilot-cli/src/harness_cmd.rs:1480-1549 | The poll found is the first that does not keep waiting, whatever the clock does |
| `Resume.AStoppedClockIsPolledForEver` | crates/localpilot-cli/src/harness_cmd.rs:1470-1472 | That end needs the clock: one that stands still while a poll waits is polled for ever |
| `Resume.NapsFitTheDeadline` | crates/localpilot-cli/src/harness_cmd.rs:1552-1575 | With a clock that moves on by at least each nap, all naps together fit the time left to the deadline, plus one second |
| `Resume.FallbackIsTheLastSecond` | crates/localpilot-cli/src/harness_cmd.rs:1526-1528 | The one-second fallback is taken exactly at the deadline and ends the wait unless the clock is behind the pause |
| `Resume.MeasureFallsIffClockPastPause` | crates/localpilot-cli/src/harness_cmd.rs:1497-1497 | The time left, measured by the time waited, falls between polls if and only if the later one is past the pause |
| `Resume.ClockBehindThePauseWaitsLonger` | crates/localpilot-cli/src/harness_cmd.rs:1470-1472 | A clock behind the pause is polled past the maximum wait: exactly until it has caught up and waited it out |
| `Resume.ReadyMeansSafe` | crates/localpilot-quota/src/lib.rs:192-228 | The wait ends ready if and only if every safety gate holds at that very poll |
| `Resume.DecisionIff` | crates/localpilot-quota/src/lib.rs:192-228 | Each of the ten answers if and only if every gate before it holds and its own does not, or all hold and the mode is the one for it |
| `Resume.NewPauseIsTheLimits` | crates/localpilot-harness/src/resume.rs:300-330 | A new pause is eligible when the limit's wait is over and is one attempt further than the stored one, up to the ceiling |
| `Resume.OutcomesAreToldAsFound` | crates/localpilot-cli/src/harness_cmd.rs:1440-1512 | Each outcome without a continuation if and only if it is the first thing in the way, and the reason told is the one found |
| `Resume.StepsAreCounted` | crates/localpilot-cli/src/harness_cmd.rs:1179-1379 | A continuation counts exactly its leading committed steps, at most a hundred, and stops only for a stated reason |
| `Resume.FailsIff` | crates/localpilot-cli/src/harness_cmd.rs:1179-1379 | A continuation fails if and only if it comes, past committed steps that let it go on, to one that breaks: no plan to resume, a failing final review, a failed set-up or step |
| `Resume.Store.TakeSteps` | crates/localpilot-cli/src/harness_cmd.rs:1179-1379 | The step loop does to progress and stored record what its steps' outcomes say |
| `Resume.Store.ConsumeIfUnchanged` | crates/localpilot-cli/src/harness_cmd.rs:259-265 | The record is deleted if and only if it is still the original |
| `Resume.Store.WaitResume` | crates/localpilot-cli/src/harness_cmd.rs:1440-1550 | The outcome of a run whose wait ends, whatever the clock does, and the record it leaves |
| `Resume.RecordGoesOnlyForProgress` | crates/localpilot-cli/src/harness_cmd.rs:1496-1512 | After any number of polls, with any clock: the record goes if and only if the continuation succeeded with a step committed and left the very bytes read on entry; otherwise it stands as the continuation left it, and untouched by a wait that has not ended |
| `Resume.NewerPauseErasedIffSameBytes` | crates/localpilot-cli/src/harness_cmd.rs:249-265 | A pause written by the continuation is erased if and only if steps were committed before it and it repeats the old bytes |
| `Resume.NewPauseHasNewBytes` | crates/localpilot-harness/src/resume.rs:315-324 | Which takes a saturated attempt count and the same pause time |
| `Resume.NewerPauseIsKept` | crates/localpilot-cli/src/harness_cmd.rs:249-265 | So below that count a newer pause is never erased |
| `Resume.ANewerPauseCanBeErased` | crates/localpilot-cli/src/harness_cmd.rs:249-265 | A run that erases one: last attempt, a step committed, and the limit again in the same second |
| `Asks.AskRegistry.Finish` | crates/localpilot-rpc/src/approver.rs:159-174 | The one terminal transition of a pending ask: remembered, delivered, once |
| `Asks.AskRegistry.OutcomeOf` | crates/localpilot-rpc/src/approver.rs:176-182 | The newest remembered ending of an ask |
| `Asks.AskRegistry.Reply` | crates/localpilot-rpc/src/approver.rs:225-257 | Only the winning reply is recorded; a late one expires the ask, a lost one hears how it ended |
| `Asks.AskRegistry.End` | crates/localpilot-rpc/src/approver.rs:261-266 | An ask still pending is recorded as ended by nobody |
| `Asks.TuiApprover.WakeUp` | crates/localpilot-cli/src/interactive_session.rs:110-124 | A closed host, a keyboard answer or a delivered outcome ends the wait |
| `Asks.TuiApprover.ReadOutcome` | crates/localpilot-cli/src/interactive_session.rs:125-133 | The answer is what the registry recorded, from the channel or from its memory |
| `Asks.TuiApprover.Drop` | crates/localpilot-rpc/src/approver.rs:343-347 | A dropped turn ends its ask as cancelled |
| `Asks.TheHostKeepsItsWord` | crates/localpilot-cli/src/interactive_session.rs:101-120 | From a new ask on, the host stands for what the keyboard said first, or its going first |
| `Asks.TheKeyboardsAnswerIsRecorded` | crates/localpilot-cli/src/interactive_session.rs:110-120 | From a new ask on, in any interleaving: a wake for the keyboard while the ask is pending logs exactly one entry, by the person here, allowed if the keyboard's first word was yes, denied if it was no or it went |
| `Asks.TheKeyboardsAnswerDecides` | crates/localpilot-cli/src/interactive_session.rs:110-133 | And whatever happens between, the turn is decided as the keyboard said, unless it is dropped |
| `Asks.NothingSaidNothingRecorded` | crates/localpilot-cli/src/interactive_session.rs:111-124 | While nothing was said and the ask is pending, the approver waits |
| `Asks.AClosedHostDenies` | crates/localpilot-cli/src/interactive_session.rs:108-110 | An ask whose host is closed is recorded as denied here, and so decided |
| `Asks.ADevicesAnswerIsRecorded` | crates/localpilot-rpc/src/approver.rs:225-257 | From a new ask on: a reply to it while pending logs exactly one entry, as given and by its author, and decides the turn that wakes and reads it |
| `Asks.RepliesAreRecorded` | crates/localpilot-rpc/src/approver.rs:225-257 | Any ask's first reply ends it: in time as given, by its author; from its deadline on as expired, by nobody |
| `Asks.RepliersAreTold` | crates/localpilot-rpc/src/approver.rs:225-257 | Every replier is told: recorded and how, past the deadline, already answered and how while remembered, or unknown |
| `Asks.ADroppedTurnCancels` | crates/localpilot-rpc/src/approver.rs:336-347 | A turn dropped while its ask is pending records it as cancelled, by nobody; later it records nothing |
| `Asks.FirstAnswerWins` | crates/localpilot-rpc/src/approver.rs:155-174 | Over every run an ask's recorded ending never changes and the ask is never pending again |
| `Asks.ApproverReadsTheFirstAnswer` | crates/localpilot-cli/src/interactive_session.rs:110-133 | In any interleaving the approver approves if and only if the first recorded answer allows and is still to be read: from the channel, or with fewer than 256 asks ended since |
| `Asks.ApprovalHasAnAuthor` | crates/localpilot-cli/src/interactive_session.rs:110-124 | Every recorded approval is a device's yes or a yes typed here |
| `Asks.NoApprovalWithoutAYes` | crates/localpilot-cli/src/interactive_session.rs:108-120 | A closed or silent host alone approves nothing |
| `Asks.NoAskIsLeftBehind` | crates/localpilot-rpc/src/approver.rs:336-347 | A turn decided or dropped leaves no ask outstanding, ever after |
| `Asks.RecentAgrees` | crates/localpilot-rpc/src/approver.rs:155-182 | An ending is remembered exactly while fewer than 256 others came after it, and remembered as delivered |
| `Asks.ANewAskIsDecidedByItsFirstAnswer` | crates/localpilot-cli/src/interactive_session.rs:101-135 | From a newly opened ask on, in any interleaving, the decision is a yes if and only if the first recorded answer is one and can still be read, and then somebody gave it |
| `Asks.ANewAskNeedsAYes` | crates/localpilot-cli/src/interactive_session.rs:101-135 | From a newly opened ask on, a closed host, or one that never says yes, leads to no approval unless a device says yes |
| `Asks.AForgottenYesIsDenied` | crates/localpilot-rpc/src/approver.rs:166-168 | A run from a new ask: a device's yes is seen, n other asks end, and it is denied if and only if n is at least 256 |
| `PairSessions.FinishPairBuild` | crates/localpilot-cli/src/interactive_session.rs:741-780 | A failed second build closes the first session; otherwise each is told of the other |
| `PairSessions.FromBundle` | crates/localpilot-cli/src/interactive_session.rs:373-469 | All or nothing: both registered and hosted, or registry and hosts exactly as before; which of the two is then closed, and closed out, for each way to fail; no other touched |
| `PairSessions.House.CloseRegistered` | crates/localpilot-cli/src/interactive_session.rs:472-493 | The named sessions are cancelled, closed, unhosted and removed, and no other is touched |
| `PairSessions.SwarmHost.AdoptPair` | crates/localpilot-server/src/swarm/spawn.rs:400-463 | Both sessions hosted or none |
| `PairSessions.SessionRegistry.Register` | crates/localpilot-server/src/registry.rs:174-222 | A live session is never replaced |
| `PairSessions.ClosePair` | crates/localpilot-cli/src/interactive_session.rs:266-287 | Neither session stays registered or hosted and both are closed |
| `PairSessions.GrantTrust` | crates/localpilot-cli/src/interactive_session.rs:314-338 | Both runtimes are trusted, with one hint each, or neither is changed |
| `Embedding.OwnerProcess.EnsureWith` | crates/localpilot-cli/src/embed_lifecycle.rs:78-163 | What a run does to the server on entry, and whether it holds a lease |
| `Embedding.OwnerProcess.Drop` | crates/localpilot-cli/src/embed_lifecycle.rs:35-59 | A granted stop is made and its token completed with the result; a remaining client gets a reaper |
| `Embedding.OwnerProcess.Reap` | crates/localpilot-cli/src/embed_lifecycle.rs:168-186 | If the registry ever stops saying "wait", the reaper acts on the first other answer |
| `Embedding.ScriptsAreOrdered` | crates/localpilot-cli/src/embed_lifecycle.rs:35-186 | Whatever is answered, what an entry, a release and a reaper do is in place: a stop licensed, a grant stopped and completed at once |
| `Embedding.AStartIsGuardedOrUndone` | crates/localpilot-cli/src/embed_lifecycle.rs:98-163 | A run that started the server guards it under a lease for the verified process, or has stopped it |
| `Embedding.EnteringIff` | crates/localpilot-cli/src/embed_lifecycle.rs:78-163 | A run starts the server, stops it again and holds a lease each if and only if the answers are those that call for it, the lease for the confirmed process |
| `Embedding.ReleasingPlans` | crates/localpilot-cli/src/embed_lifecycle.rs:35-59 | A lease given up is stopped and completed under its granted token, handed to a reaper while others remain, or nothing |
| `Embedding.ReapingPlans` | crates/localpilot-cli/src/embed_lifecycle.rs:168-186 | A reaper granted a token stops and completes under it, and without one does nothing |
| `Embedding.EveryStopIsLicensed` | crates/localpilot-cli/src/embed_lifecycle.rs:35-186 | In every interleaving of those programs, the same process's act just before a stop is a granted token, or the failed verification or claim of the server it had started just before |
| `Embedding.CompletedWithTheStopsResult` | crates/localpilot-cli/src/embed_lifecycle.rs:41-44 | In every interleaving a token is completed with the result of the stop made just before, just after its grant |
| `Embedding.TokensAreCompletedOnce` | crates/localpilot-cli/src/embed_lifecycle.rs:168-186 | In every interleaving each token handed out is used by one process, completed at most once, and exactly once when that process has done all it had to |
| `Embedding.UserManagedIsUntouched` | crates/localpilot-cli/src/embed_lifecycle.rs:133-145 | A run answered that somebody else manages the endpoint, or that it is stopping or unreadable, adds nothing to the log of any interleaving |
| `ContextWindow.WindowIsTheSmallerSignal` | crates/localpilot-cli/src/context_window.rs:39-62 | The window is the smaller of server and configured, known unless neither says anything |
| `ContextWindow.UnknownWindowIsTheFallback` | crates/localpilot-harness/src/session.rs:469-484 | An unknown window is the fallback budget, with nothing reserved and no warning |
| `ContextWindow.QuietIffTheMinimumFits` | crates/localpilot-cli/src/context_window.rs:71-131 | No warning if and only if the reply cap, or the default reserve, leaves the 4096-token minimum; below the minimum it always warns |
| `ContextWindow.QuietMeansTheBudgetFits` | crates/localpilot-cli/src/context_window.rs:116-125 | No warning if and only if budget and reply fit the window together |
| `ContextWindow.SuggestionsWork` | crates/localpilot-cli/src/context_window.rs:168-174 | A suggested cap is positive and quiet, a quarter of the window where that fits and otherwise all that does; none is suggested exactly when no positive cap is quiet |
| `ContextWindow.RemedyIsExact` | crates/localpilot-cli/src/context_window.rs:140-156 | The cap named in a warning is the largest quiet one, and its subtraction never underflows |
| `ContextWindow.CapacityWarnings.WarnOnce` | crates/localpilot-cli/src/context_window.rs:182-203 | A warning is given once for its provider, model, window and cap |
| `ContextWindow.EachWarningOnce` | crates/localpilot-cli/src/context_window.rs:179-203 | Over any calls each key that ever warns is reported exactly once, and no other |
| `Throttle.IngestThrottle.Drain` | crates/localpilot-cli/src/ingest_progress.rs:78-115 | The notices told and the throttle state left by a queue |
| `Throttle.SeveralDrainsAreOne` | crates/localpilot-cli/src/ingest_progress.rs:73-77 | Draining in several calls tells what draining once does, in the same order |
| `Throttle.NoticesRise` | crates/localpilot-cli/src/ingest_progress.rs:96-108 | Parsing notices stand at strictly rising quarters, over any stream |
| `Throttle.ATickIsToldIff` | crates/localpilot-cli/src/ingest_progress.rs:96-108 | A parsing tick is told if and only if its quarter is above the start and above every earlier tick's |
| `Throttle.MilestonesAreTold` | crates/localpilot-cli/src/ingest_progress.rs:80-114 | Every milestone is told as queued, at its place; completion tells nothing |
| `Throttle.AtMostFourNotices` | crates/localpilot-cli/src/ingest_progress.rs:96-108 | With one total never exceeded there are at most four |
| `Throttle.QuarterIsBounded` | crates/localpilot-cli/src/ingest_progress.rs:102-103 | Saturation never raises a quarter above four; short of it the quarter is exact |
| `Throttle.PastTheTotalThereIsNoBound` | crates/localpilot-cli/src/ingest_progress.rs:96-108 | Without that there is no bound: a queue of n ticks past their total tells n notices |
| `Incognito.WorkspaceSnapshot.Walk` | crates/localpilot-cli/src/incognito.rs:57-85 | The files a walk lists and the files it counts |
| `Incognito.CountFiles` | crates/localpilot-cli/src/incognito.rs:188-201 | The regular files below a directory |
| `Incognito.CountIsExact` | crates/localpilot-cli/src/incognito.rs:188-201 | Counting counts each file once, at any depth |
| `Incognito.EveryFileOnce` | crates/localpilot-cli/src/incognito.rs:48-85 | Each regular file is listed if no directory above it is called .git, counted otherwise, once |
| `Incognito.ReportIsExact` | crates/localpilot-cli/src/incognito.rs:105-118 | Created files are exactly the new ones outside .git, below it only net growth is reported, and writes outside and commands as they were recorded |
| `Incognito.QuietIsExact` | crates/localpilot-cli/src/incognito.rs:121-143 | "No files were created" if and only if nothing was written outside, no command ran, nothing new stands outside .git and no more appeared below it than vanished |
| `Incognito.QuietCanHideACreatedFile` | crates/localpilot-cli/src/incognito.rs:121-143 | So a file created below .git can go untold |

## Left out

- Drawing and wording: texts, titles, layouts, scrolling, the focus ring, and the QR and link toggles; only which action is offered, which notice is told and when.
- Files, the network, processes, the keychain, YAML and JSON: their answers are inputs; serialization is a pair of functions of which reading back what was written is assumed.
- Tokio, locks and channels as such: interleavings of atomic steps. Reference counts are an explicit owner count in a table of shared authorities (`RemoteRequests`); a dropped owner is a `Drop` call.
- Unix times are natural numbers. The source converts the day count from 64 unsigned to signed bits, which never saturates after the division by 86400.
- `usize` is 64 bits wide in `ContextWindow`; token counts need no wrap-around because every operation saturates or stays within its arguments.
- `ServerStarts`: how a start probes and spawns the server (`remote_server_start.rs:148-218`) and how sharing moves by itself; their results are events.
- `Pairing`: the tasks may run between a refresh's reading the phase and its taking the code; every other host step is atomic. The wire exchange of an attempt; each of its legs is a task step. The copy and link actions, which only redraw. What the form holds: name, scope and workspace. An attempt dropped with its host ends with its tasks.
- `Devices`: status checks on the same worker, the one-line result and the follow-up of a revoked device's connection. Registry changes made by other processes.
- `RemoteRequests`: what a prompt or a command does once it runs, and requests of kinds no device may send.
- `Resume.Store.WaitResume`: store read and write failures on the record itself, which end the run with an error before or after the same changes.
- `Resume.Store.TakeSteps`: what a step does; its outcome, and whether it stored a pause, are inputs.
- Asks opened without a deadline have one ten years ahead in the source; here they have none.
- `PairSessions.FromBundle`: a runtime refused by the registry is consumed unclosed, as in the source; contexts closed out are a list of identifiers.
- `Embedding.TokensAreCompletedOnce`: the lease registry (the `embedding_lease` crate) is not part of this model; it is assumed never to grant a stop token twice, what `localbox` itself does on a stop is not modelled, and a lease dropped before it is guarded is released by the registry's own code.
- The order in which `feature` writes its documents (`harness_cmd.rs:754-792`), plan intake and the quality gates: single passes over files.
- The window probe and its cache (`context_window.rs:265-306`): one call per key, behind a library cell.
- Tables and set code settled by one reading: host policy, grants, definition validation, build metadata, egress consent, status actions.
- Commands that mostly call other crates: lab, curate, ingest, handoff, import, harness panels.
