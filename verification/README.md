# Garage door, endpoint evidence, stuck detection and map surgery of Roborock Plus

A Dafny model of the parts of the Roborock Plus integration that decide when a garage door moves, what counts
as proof that it has moved, when a robot is stuck, and how the robot's marker in a binary map is corrected;
with proofs about all inputs, all histories and all runs. Verify with `dafny verify dfyconfig.toml`.

## What is modelled

**The door protocol** (`GarageDoor`, `GarageRuntime`, `RobotStates`). A controller opens the door, confirms it and
lets the robot go; a sequence then waits for proof that the clean started, closes behind the departing robot
(pause, close, resume), lets it in again (pause, open, resume), opens for visits to the dock in mid-task and closes
at the end. The classes carry the fields of the original and record what they look at and command. Each method is
proved equal to a step function on a value that holds the whole state; `GarageSafety`, `GarageOutcomes`,
`NothingLatches` and `WaitSucceeds` prove properties of these functions. `StandingDoor` and `GarageWorlds` build worlds
that can happen, for arbitrary accepted bindings, to show where a condition is exact or a failure real; `GarageStranding`
and `HeldOnReturn` follow two of them through whole sequences, and `GarageTrip` one that goes well. `GarageActions` says
of each operation exactly when it acts and what follows; `GarageReleases` and `GarageLettingIn` follow pauses to their
resumes over whole runs.

The outside world is a *script*: for every stretch between two suspensions it says what the door, the robot, the
household's permission and the unloading of the runtime look like, how the suspension that ends the stretch turns
out, and how much longer than asked it takes. The theorems hold for every script. The assumptions in it:

- readings and the clock change only while the controller is suspended, and the clock does not go back;
- a sleep of `d` seconds takes at least `d`, unless it is cancelled;
- any external call may fail with a refusal, with any other error or by cancellation, after it was issued;
- a pause or resume and the status refresh that follows it (`garage_runtime.py:266-269`) are one suspension;
- unloading may come during any suspension; where it matters that it cancels the running sequence
  (`garage_runtime.py:317-322`), the statement says so (`Orderly`);
- one sequence at a time drives a controller. `async_send` replaces the running task without cancelling it
  (`garage_runtime.py:403`), so this is an assumption about callers and not a property of the code.

**Endpoint evidence** (`GarageBinding`, `GarageConfig`, `GarageRequirements`, `DoorEvidence`, `DoorHistory`). The binding is a map from keys to
untyped values, as stored. Validation, required fields, suggestions and waiting times are proved against the
faults they are about, and validation against a second account, field by field, in `GarageRequirements`. The tracker is a class proved against a step function, and `DoorHistory` says what its answers
mean for arbitrary sequences of commands, invalidations and observations. The present controller never notes a
command (`garage_door.py:217` invalidates instead); noting one is an operation any client may call.

**Stuck detection** (`StuckDetection`). The tracker with its two anchors and the event logic of the coordinator.

**Map surgery** (`MapRender`). The walk over the blocks of a map, the patch of the robot's coordinates in place, the
read-back, and the choice of what to redraw, related to an abstract list of blocks.

**Positions** (`PositionTrust`, `MapPosition`). When a sampled position is believed, what "outside" then means, and the
schedule of the background reads. There, occurrences are assumed to come in the order of their times.

Times and coordinates are reals; distances are compared by their squares. Robot states are a datatype with one
constructor per name that some table mentions. The phase that the original calls idle is `AtRest`.

## What turned out not to hold

- *A redraw falls back to the old image on every failure* (`v1_map_render.py:244-245`): a target that does not fit in
  four signed bytes raises, and so does a truncated or corrupt compressed map, whose error is not the one that is caught
  (`RedrawRaisesExactlyWhen`).
- *A written position reads back*: exactly for block headers of eight bytes or more (`RoundTripNeedsFullHeader`). The
  read-back check keeps the other cases harmless (`ServedImageShowsTarget`).
- *The robot is released even when closing failed* (`garage_door.py:348-351`): if and only if the runtime is still loaded
  when the attempt to close ends, because the resume raises otherwise (`HeldRobotGoesOnUnlessUnloaded`). Unloading during
  the attempt cancels it and leaves the robot paused (`LostResumeWasCancelled`, `UnloadingLeavesRobotPaused`).
- *The door is reopened for every visit to the dock in mid-task* (`garage_door.py:389-393`): if and only if the task flag is
  set (`RulesNeedTheFlag`), and closing behind the departing robot clears it (`ClosedBehindEndsTheTable`). Unless the robot
  is seen returning, the rest of the sequence does not open the door again and ends only by its deadline, a failure or
  unloading (`WithoutReturnNothingReopens`); a robot can be left before the closed door (`RobotIsLeftBeforeClosedDoor`).
- *A timed or estimated endpoint is a possible source for the open side* (`garage_config.py:203-204` accepts it): a clean can
  be sent if and only if the source is a contact or a measured position (`CleanCanBeSentExactly`).
- *Nothing latches* (`garage_door.py:24`), as a statement about two pasts: the operations ignore the past if and only if no
  measured endpoint has a settle time (`PastIgnoredExactly`); then whole trips do so too (`TripsAgree`).
- *The next good sample resumes normal operation* (`garage_door.py:24-28`): not on the way back. One look at an unreadable
  door after the pause (`OneBadLookHolds`) or one failed command (`OneFailureHoldsTheRobot`) leaves the robot paused, and
  then a pass does more than look if and only if the robot is read outside before a readable door that is not closed
  (`PassActsExactly`), to try to close the door on its way back (`PassClosesOnHeld`). If it is never read outside it stays
  paused for the rest of the sequence, however good the looks are (`HeldStaysHeld`).
- *A docked robot is never mistaken for a departed one* (`garage_runtime.py:157-159`): exactly for zones that reach 1000
  units beyond the charger on every side (`DockedNeverOutsideExactly`).
- *A position used during a task is recent* (`v1_map_position.py:59-69`): the age is bounded by the live status, which the
  sampled status of the same reading may contradict (`PositionAgeExactly`).
- *A backstop verdict is a stuck verdict*: if and only if no sample steps out of the short radius, inside the region, with
  a time before the backstop window was over (`VerdictsAgreeExactly`); times that do not go back exclude it
  (`VerdictsAgree`).

## Model

| member | source | states |
|---|---|---|
| GarageSafety.EveryCloseIsJustified | custom_components/roborock_plus/garage_runtime.py:411-483 | In every run of a sequence, under every script of the world, a close command has behind it a look at a working robot away from its dock, directly before it a look at a door that is not closed with the household's permission and with every source of the binding readable, and before that either a docked robot with its task over, or a robot seen outside, paused by this sequence and then seen paused |
| GarageSafety.SequenceIsDisciplined | custom_components/roborock_plus/garage_runtime.py:411-456 | Every event of every run obeys one rule per kind of event: what must have been seen before a pause, a resume, an open and a close; a look shows at most one endpoint, and none at which the door physically is not; no clean is sent inside a sequence |
| GarageSafety.EveryReleaseIsPhysical | custom_components/roborock_plus/garage_door.py:353-381 | On the way back the robot is resumed only directly after a look at a physically open door, after its own pause was seen, with no pause or resume in between |
| GarageSafety.NothingBeforeProof | custom_components/roborock_plus/garage_runtime.py:458-483 | Any pause, resume or door command of a run comes after a look that shows the robot working away from its dock |
| GarageSafety.UnprovenCleanMovesNothing | custom_components/roborock_plus/garage_runtime.py:425-427 | If the start is not proven before the confirmation deadline, the whole rest of the run only looks, and no look in it shows a working robot away from its dock |
| GarageSafety.StartOnlyLooks | custom_components/roborock_plus/garage_runtime.py:458-483 | Awaiting the start only looks; it answers yes exactly at the first look at a working robot, and answers no only when unloaded, or at the deadline after clearing the task flag; only a cancellation ends it otherwise |
| GarageSafety.DepartureIsDisciplined | custom_components/roborock_plus/garage_door.py:274-351 | The record of one departure has one of four shapes: a look; a pause that failed; a pause that was not seen and nothing more; a seen pause, one attempt to close, and exactly one resume, missing only when the runtime was unloaded |
| GarageSafety.PausedIsDisciplined | custom_components/roborock_plus/garage_door.py:319-351 | The same shape and discipline for the part from the pause on |
| GarageSafety.HeldIsReleased | custom_components/roborock_plus/garage_door.py:339-351 | After a seen pause there is one attempt to close and then one resume, whether closing succeeded, was refused, timed out, failed or was cancelled; only unloading of the runtime suppresses it |
| GarageSafety.ReturnIsDisciplined | custom_components/roborock_plus/garage_door.py:353-381 | The record of one way back: a look; a pause that failed; a pause that was not seen, which refuses; or a seen pause, one attempt to open, and a resume only directly after a look at the open door |
| GarageSafety.HeldIsLetIn | custom_components/roborock_plus/garage_door.py:376-381 | After a seen pause on the way back, a failed opening ends without a resume and a confirmed one is followed by at most one |
| GarageSafety.FinishIsDisciplined | custom_components/roborock_plus/garage_door.py:383-451 | The end-of-task table keeps the discipline from any state of the controller |
| GarageSafety.PassIsDisciplined | custom_components/roborock_plus/garage_runtime.py:428-441 | One pass over the rules keeps the discipline, whichever of return, departure and end applies |
| GarageSafety.RoundsAreDisciplined | custom_components/roborock_plus/garage_runtime.py:428-448 | Any number of passes, up to the deadline of the sequence, keeps it |
| GarageSafety.OpenedIsDisciplined | custom_components/roborock_plus/garage_door.py:195-230 | Opening issues at most one command; success means that the last look shows the door open and that the task flag is set; failure leaves the flag and is never an unclassified error |
| GarageSafety.ClosedIsDisciplined | custom_components/roborock_plus/garage_door.py:232-257 | Closing issues at most one command; success means that the last look shows the door closed; the task flag is untouched |
| GarageSafety.MovedIsDisciplined | custom_components/roborock_plus/garage_door.py:213-218 | A door command is followed by looks alone until the endpoint is seen or the wait is given up |
| GarageSafety.WaitingShows | custom_components/roborock_plus/garage_door.py:259-270 | Waiting only looks; it succeeds exactly with a last look at the endpoint and otherwise ends as not confirmed or cancelled |
| GarageSafety.LookIsTrue | custom_components/roborock_plus/garage_door.py:102-116 | A refresh changes only readings and evidence, confirms an endpoint only if the door is physically there, never both endpoints, and leaves the controller free to act only if every source of the binding can be read |
| GarageSafety.FreshIsMovable | custom_components/roborock_plus/garage_door.py:131-140 | After a look, the door may be moved exactly when no reading blocks it, it is not there already and, for closing, the household permits it |
| StandingDoor.UnblockedExactlyWhenReadable | custom_components/roborock_plus/garage_door.py:131-140 | For an accepted binding, quiet evidence and a door not physically at both endpoints: nothing blocks the controller if and only if the cover is available, nothing restored, every contact source says on or off, every position source a number in 0 to 100, and the contacts do not conflict |
| GarageActions.BlockedReasonIsFirst | custom_components/roborock_plus/garage_door.py:131-140 | The reason named is that of an endpoint and none before it in the order of the code is; a lost cover goes before all |
| GarageActions.TaskOverExactly | custom_components/roborock_plus/garage_door.py:169-191 | The task counts as over only if that is reported, or nothing is reported of it and the state is one of the three parked ones |
| GarageActions.OutsideExactly | custom_components/roborock_plus/garage_door.py:150-157 | Outside is fresh, trusted, beyond the zone and not docked |
| GarageActions.WorkingExactly | custom_components/roborock_plus/garage_runtime.py:473-474 | Working is away from the dock with a task reported, or none reported in a state that is not parked; in the doorway is fresh, trusted, inside the zone and not docked |
| GarageOutcomes.PauseIsObservedFirst | custom_components/roborock_plus/garage_door.py:336-341 | In every run, the event directly after a pause is a look, never a command |
| GarageOutcomes.ResumesAreMatched | custom_components/roborock_plus/garage_door.py:319-381 | Between any two resumes of a run there is a pause by the same rule as the later resume |
| GarageReleases.EveryHeldRobotGoesOn | custom_components/roborock_plus/garage_door.py:319-351 | In every run, every pause on departure that the next look shows as paused has its own later resume, with no pause and no other resume in between, unless the run ends unloaded |
| GarageOutcomes.EveryOpenIsJustified | custom_components/roborock_plus/garage_door.py:353-419 | Every open command of a run follows a look at a door that is not open and whose sources can all be read, and before it either a robot docked in the middle of its task, or one seen returning, paused and seen paused |
| GarageOutcomes.HeldRobotGoesOnUnlessUnloaded | custom_components/roborock_plus/garage_door.py:342-351 | After a seen pause on departure the resume is issued if and only if the runtime is still loaded when the attempt to close ends; the attempt itself never resumes the robot |
| GarageOutcomes.CleanIsSentThroughOpenDoor | custom_components/roborock_plus/garage_runtime.py:384-404 | A clean or resumed clean is the last event of sending, directly after a look at a physically open door, with nothing but looks and open commands before it |
| GarageOutcomes.EstimatedDoorNeverReleases | custom_components/roborock_plus/door_evidence.py:34-42 | With an open endpoint that is timed or estimated, sending a clean always fails and no clean is sent |
| GarageOutcomes.OpeningConfirms | custom_components/roborock_plus/garage_door.py:195-230 | Opening without any history: one attempt, success exactly with a last true look at the open door |
| GarageOutcomes.ClosingConfirms | custom_components/roborock_plus/garage_door.py:232-257 | Closing without any history: one attempt, success means confirmed closed |
| GarageOutcomes.EndGivesDoorBack | custom_components/roborock_plus/garage_door.py:404-451 | When the end is reported, the flag was set before, is cleared now, and the phase is blocked, or at rest with the door confirmed closed |
| GarageOutcomes.RulesNeedTheFlag | custom_components/roborock_plus/garage_door.py:404-419 | After a look at a docked robot and a readable door on the wrong side, the table moves the door if and only if the task flag is set |
| GarageOutcomes.ClosedBehindEndsTheTable | custom_components/roborock_plus/garage_door.py:312-314 | Closing behind a departed robot clears the flag, and the end-of-task table asked directly after it looks once, does nothing and does not end the sequence |
| GarageOutcomes.RequestedCloseSparesDoorway | custom_components/roborock_plus/garage_runtime.py:542-572 | A close on request issues at most one command, a close, directly after two looks, the later of which shows no robot in the doorway |
| GarageOutcomes.RequestRefusedExactlyInDoorway | custom_components/roborock_plus/garage_runtime.py:553-565 | A request is refused for the robot's sake, after one look, if and only if that look places the robot in the doorway |
| GarageActions.RequestActsExactly | custom_components/roborock_plus/garage_runtime.py:542-572 | For a door that can be read, a request issues the close command if and only if nobody is known to be in the doorway, the household permits it and the door is not closed |
| GarageActions.SendingActsExactly | custom_components/roborock_plus/garage_runtime.py:371-404 | A clean reaches the robot if and only if the runtime is loaded and opening returned; the other commands exactly when they are not refused; each refusal by its code |
| GarageActions.OpeningActsExactly | custom_components/roborock_plus/garage_door.py:195-230 | The open command is issued if and only if the first look can be read and does not show the door open; otherwise nothing but that look happens, with the reason on record or the flag set; success clears the last error |
| GarageActions.ClosingActsExactly | custom_components/roborock_plus/garage_door.py:232-257 | The close command is issued if and only if the first look can be read, the household permits it and the door is not closed; each refusal by its code |
| GarageActions.MoveExactly | custom_components/roborock_plus/garage_door.py:213-230 | A command that fails ends the attempt at once, a fault by its code and on record; otherwise the endpoint is polled until shown or for the operation timeout, counted from when the command returned |
| GarageActions.WaitingIsTimed | custom_components/roborock_plus/garage_door.py:259-270 | Polls are 0.2 seconds apart plus lag, all but the last before the deadline and without the endpoint; giving up comes at the deadline and never before; success exactly with a last look at the endpoint |
| GarageActions.OperationSecondsExactly | custom_components/roborock_plus/garage_door.py:261 | Ninety seconds without a configured timeout, and the configured one otherwise |
| GarageActions.DepartureActsExactly | custom_components/roborock_plus/garage_door.py:274-317 | The robot is paused on departure if and only if the first look shows it outside and the door readable and not closed, and the runtime is loaded; otherwise nothing but that look happens, with the phase that tells why |
| GarageActions.DepartureTellsOutcome | custom_components/roborock_plus/garage_door.py:309-317 | After a seen pause: phase closed outside, flag cleared and door confirmed closed exactly when the attempt succeeded; otherwise blocked, flag kept and the refusal on record |
| GarageActions.UnseenPauseIsTold | custom_components/roborock_plus/garage_door.py:338-341 | An unseen pause on departure is put on record and nothing else happens |
| GarageActions.ReturnActsExactly | custom_components/roborock_plus/garage_door.py:353-381 | The robot is paused on its way back if and only if it is seen returning, the door is not open and the runtime is loaded |
| GarageActions.LetInRobotGoesOnUnlessUnloaded | custom_components/roborock_plus/garage_door.py:376-381 | After a seen pause and a confirmed opening the resume is the next event if and only if the runtime is loaded then; after a failed opening there is none and the failure goes on |
| GarageActions.UnseenPauseIsRefused | custom_components/roborock_plus/garage_door.py:371-375 | An unseen pause on the way back is refused by name, after no more than that look |
| GarageLettingIn.EveryReturningRobotIsLetIn | custom_components/roborock_plus/garage_door.py:353-381 | In every run that is not cancelled: every pause on the way back that did not fail and was seen is followed by one attempt to open; if it succeeds the resume is the next event unless the runtime was unloaded at that moment, and otherwise the record shows the unreadable look, the failed command, or that the timeout passed without the endpoint |
| GarageActions.FinishAnswersExactly | custom_components/roborock_plus/garage_door.py:383-451 | The table ends the sequence and clears the flag if and only if the flag is set, the robot docked and its task over; it raises only when cancelled |
| GarageActions.FinishActsExactly | custom_components/roborock_plus/garage_door.py:404-451 | When the first look can be read, the table opens if and only if the flag is set, the robot docked in mid-task and the door not open, and closes if and only if the task is over, closing permitted and the door not closed |
| GarageActions.FinishLeavesTheRest | custom_components/roborock_plus/garage_door.py:400-439 | Where the table attempts nothing the controller keeps its state but for the readings; an unreadable door blocks, and ends a task that is over; a closed one ends it at rest |
| GarageActions.FinishTellsOutcome | custom_components/roborock_plus/garage_door.py:413-451 | A refused attempt of the table leaves its refusal on record and a blocked phase; a successful one, the phase of the open or the closed door and no error |
| GarageActions.PassObeysTable | custom_components/roborock_plus/garage_runtime.py:431-441 | A pass asks the table: with a readable first look at a robot docked and not returning, its record holds the open command if and only if the flag is set, the task running and the door not open, the close command if and only if the flag is set, the task over, closing permitted and the door not closed, and it answers that the sequence is over exactly for a flagged task that is over |
| GarageActions.PassPausesExactly | custom_components/roborock_plus/garage_runtime.py:431-439 | With a readable first look and a loaded runtime, a pass pauses the robot on departure if and only if it is outside, not returning and the door not closed, and on its way back if and only if it is returning and the door not open |
| GarageActions.RoundsBeginWithPass | custom_components/roborock_plus/garage_runtime.py:428-448 | A loaded runtime makes a pass; if that goes on before the deadline, the next one follows a second and the lag of the stretch later |
| GarageActions.RoundsEndExactly | custom_components/roborock_plus/garage_runtime.py:428-448 | Following the robot ends normally only by unloading, at the deadline, or with the flag cleared and the door confirmed closed or blocked |
| GarageActions.StartIsTimed | custom_components/roborock_plus/garage_runtime.py:469-483 | Polls for the start are a second apart plus lag, all but the last before the deadline; it is given up only at the deadline, after a last look without work |
| GarageActions.WorkIsNoticed | custom_components/roborock_plus/garage_runtime.py:469-483 | A robot that works at some poll before the deadline is answered yes, unless that is unloaded or cancelled first |
| GarageActions.StartIsAwaited | custom_components/roborock_plus/garage_runtime.py:408-427 | The sequence awaits the start for 180 seconds: if some poll before then shows work, it goes on from a look that shows it, and only looks before |
| GarageTrip.WholeTripSucceeds | custom_components/roborock_plus/garage_runtime.py:357-456 | For every accepted binding with two contacts, every sound state and every timeout of a minute or more there is a world in which sending a clean and following it issues exactly: open, clean, pause, close, resume, pause, open, resume, open for a recharge in mid-task, close; it ends 24 seconds after, before its deadline, with the flag cleared, at rest and a last look at the closed door |
| GarageWorlds.CleanCanBeSentExactly | custom_components/roborock_plus/garage_runtime.py:384-404 | For every accepted enabled binding and every sound state: there is a world in which a clean is sent if and only if the open endpoint is read by a contact or a measured position |
| GarageWorlds.MoveSucceeds | custom_components/roborock_plus/garage_door.py:213-230 | In a world where nothing fails and the door gets where it is sent, a door command succeeds, whatever the endpoint's settle time |
| GarageWorlds.LostResumeWasCancelled | custom_components/roborock_plus/garage_runtime.py:317-326 | When unloading always cancels the running sequence, a held robot misses its resume only if that cancelled the attempt to close |
| GarageWorlds.UnloadingLeavesRobotPaused | custom_components/roborock_plus/garage_door.py:342-351 | It does happen, for every accepted binding and sound state, in a world where unloading cancels the sequence: the robot is paused and seen paused before a readable open door, the close is commanded and cancelled, and the record ends without a resume |
| GarageWorlds.WithoutReturnNothingReopens | custom_components/roborock_plus/garage_runtime.py:428-448 | The whole rest of a sequence whose task flag is not set, in any world that never shows the robot returning: no open command, the flag stays unset, and a normal end means unloading or the deadline |
| GarageStranding.RobotIsLeftBeforeClosedDoor | custom_components/roborock_plus/garage_runtime.py:411-456 | For every accepted binding with two contacts and every timeout of a minute or more there is a world in which a whole sequence closes the door behind the robot and resumes it, the household lets it in through the doorway and shuts the door, and then until its deadline the sequence only looks at a robot docked in mid-task before the closed door |
| GarageStranding.RoundsOnlyLook | custom_components/roborock_plus/garage_runtime.py:428-448 | If from some moment on nothing changes, the door stands at an endpoint, the task flag is unset and the robot is neither returning nor read outside, the rest of a sequence only looks, every look shows that door, and it ends by its deadline |
| HeldOnReturn.OneBadLookHolds | custom_components/roborock_plus/garage_door.py:366-381 | For any binding, one stretch right after the pause in which the door cannot be read makes the way back end with a refusal, after exactly a look, the pause and two looks, without a resume |
| HeldOnReturn.PassActsExactly | custom_components/roborock_plus/garage_runtime.py:431-441 | For a robot paused away from its dock with its task running, and the runtime loaded: one pass does more than look if and only if the robot is read outside and the third look shows a door that is readable and not closed |
| HeldOnReturn.PassClosesOnHeld | custom_components/roborock_plus/garage_door.py:295-303 | And what it does then is to pause the robot once more, to close the door on its way back |
| HeldOnReturn.HeldStaysHeld | custom_components/roborock_plus/garage_runtime.py:428-448 | In every world, for every binding and whatever the door shows: from any state, while the robot stands held and is not read outside, the whole rest of the sequence only looks |
| HeldOnReturn.OneFailureHoldsTheRobot | custom_components/roborock_plus/garage_runtime.py:411-456 | For every accepted binding with two contacts and every timeout there is a world in which the one command to open fails once; every later look shows a readable closed door and the paused robot, and until the deadline the sequence only looks |
| NothingLatches.PastDoesNotMatter | custom_components/roborock_plus/garage_door.py:195-381 | Two controllers without a settle time on a measured position, in the same world but with any phases, errors, task flags and sound evidence, issue the same commands after the same looks and succeed or are refused alike in opening, closing, departure and return |
| NothingLatches.SequencesAgree | custom_components/roborock_plus/garage_runtime.py:411-456 | Whole sequences of two such controllers that agree on the task flag leave the same record and end alike, again with sound evidence |
| NothingLatches.TripsAgree | custom_components/roborock_plus/garage_runtime.py:357-456 | From the command on not even the task flag matters: two such controllers with any pasts send the same, and when a clean is accepted the whole sequence after it leaves the same record and ends alike |
| NothingLatches.PastIgnoredExactly | custom_components/roborock_plus/garage_door.py:195-257 | For every accepted enabled binding: opening, closing, departure and return all ignore the past, in all worlds and for all sound pasts, if and only if no measured endpoint has a settle time |
| NothingLatches.SettlingRemembers | custom_components/roborock_plus/door_evidence.py:201-213 | With a settle time on a measured endpoint of an accepted binding, a controller made just now and one that looked when the settle time began leave different records in the same world |
| NothingLatches.WaitsAlike | custom_components/roborock_plus/garage_door.py:259-270 | Waiting takes the same number of polls and ends alike whatever the evidence was before |
| NothingLatches.ReturnSetsFlag | custom_components/roborock_plus/garage_door.py:353-381 | After a way back the task flag is set exactly if it was before or the door was confirmed open |
| WaitSucceeds.ArrivedDoorIsConfirmed | custom_components/roborock_plus/garage_door.py:259-270 | For every binding that validation accepts: if every poll finds the door at the wanted endpoint, by contact or measured position, waiting returns or is cancelled and never reports the endpoint as not confirmed, however late each poll is |
| WaitSucceeds.MovedDoorIsConfirmed | custom_components/roborock_plus/garage_door.py:213-218 | So a door that has arrived when its command returns is confirmed, from any earlier evidence |
| WaitSucceeds.MeasuredWaitEnds | custom_components/roborock_plus/door_evidence.py:201-213 | A wait longer than the settle time always outlasts it: the last poll comes no earlier than the deadline and still counts |
| WaitSucceeds.ContactConfirmsAtOnce | custom_components/roborock_plus/door_evidence.py:217-233 | A contact at its endpoint is confirmed by a single look |
| WaitSucceeds.ValidTimeoutIsLonger | custom_components/roborock_plus/garage_config.py:225-227 | In an accepted binding the operation timeout is in range and strictly above the wait of either endpoint |
| GarageDoor.GarageController.Refresh | custom_components/roborock_plus/garage_door.py:102-116 | The readings and the evidence become those of this moment and the look is recorded; nothing is commanded |
| GarageDoor.GarageController.WaitFor | custom_components/roborock_plus/garage_door.py:259-270 | The polling loop takes the controller where the recursive specification says, for every lag of the clock; it terminates by deadline minus clock |
| GarageDoor.GarageController.MoveDoor | custom_components/roborock_plus/garage_door.py:213-218 | Evidence invalidated, command issued, endpoint awaited, as specified |
| GarageDoor.GarageController.OpenDoor | custom_components/roborock_plus/garage_door.py:195-230 | Whole new state and outcome of opening on every path |
| GarageDoor.GarageController.CloseDoor | custom_components/roborock_plus/garage_door.py:232-257 | Whole new state and outcome of closing on every path |
| GarageDoor.GarageController.PauseOpenCloseResume | custom_components/roborock_plus/garage_door.py:319-351 | Whole new state and outcome, including the resume that runs whichever way the attempt ends |
| GarageDoor.GarageController.UpdateAfterDeparture | custom_components/roborock_plus/garage_door.py:274-317 | Whole new state and outcome of the departure rule |
| GarageDoor.GarageController.UpdateReturning | custom_components/roborock_plus/garage_door.py:353-381 | Whole new state and outcome of the return rule |
| GarageDoor.GarageController.SequenceFinished | custom_components/roborock_plus/garage_door.py:383-451 | Whole new state and outcome of the end-of-task table |
| GarageRuntime.GarageRuntime.HandleReturn | custom_components/roborock_plus/garage_runtime.py:336-353 | A refusal on the way back is swallowed, any other failure goes on |
| GarageRuntime.GarageRuntime.AwaitCleanStarted | custom_components/roborock_plus/garage_runtime.py:458-483 | The start loop follows its specification and terminates by deadline minus clock |
| GarageRuntime.GarageRuntime.RunPass | custom_components/roborock_plus/garage_runtime.py:431-441 | One pass applies return, else departure, then the end of the task, on the state each leaves |
| GarageRuntime.GarageRuntime.FollowRobot | custom_components/roborock_plus/garage_runtime.py:428-448 | The main loop follows its specification and terminates by deadline minus clock |
| GarageRuntime.GarageRuntime.FinishSequence | custom_components/roborock_plus/garage_runtime.py:411-456 | The whole sequence: nothing after an unproven start; every failure but cancellation is absorbed |
| GarageRuntime.GarageRuntime.AsyncSend | custom_components/roborock_plus/garage_runtime.py:357-404 | Which commands open the door first, which are refused, which pass through, and that a sequence of its own is started exactly for a clean or resumed clean the robot accepted |
| GarageRuntime.GarageRuntime.AsyncRequestClose | custom_components/roborock_plus/garage_runtime.py:542-572 | The refusal for the robot in the doorway, else the ordinary close |
| DoorHistory.MeasuredConfirmedExactly | custom_components/roborock_plus/door_evidence.py:201-260 | In every history of inputs, a measured endpoint is confirmed if and only if an unbroken run of observations ending now all satisfy the threshold and span at least the settle time; a command, invalidation, lost or restored reading, clock step back or conflict breaks the run |
| DoorHistory.EstimateIsEarned | custom_components/roborock_plus/door_evidence.py:96-282 | An estimated or timed endpoint is reported reached only if a command in that direction was noted at least travel plus margin ago and everything since was a clean observation of its source |
| DoorHistory.TimedReachedExactly | custom_components/roborock_plus/door_evidence.py:262-282 | For a timed source that is also enough: both directions |
| DoorHistory.EstimatedReachedExactly | custom_components/roborock_plus/door_evidence.py:235-282 | For an estimated position, in every history and both directions: it is reported reached if and only if a live command in its direction has had travel plus margin and an unbroken run of readings after it has lasted the settle time |
| DoorHistory.TracksEstimateAlways | custom_components/roborock_plus/door_evidence.py:201-282 | Invariant over every history: an estimated endpoint is timed exactly since the first reading of such a run under a live command |
| DoorHistory.RevokedStaysRevoked | custom_components/roborock_plus/door_evidence.py:96-113 | Once there is no live command, no later input but a command brings one back |
| DoorHistory.TracksAlways | custom_components/roborock_plus/door_evidence.py:201-213 | Invariant over every history: a direction is timed exactly since the first observation of an unbroken run |
| DoorHistory.CommandsAlways | custom_components/roborock_plus/door_evidence.py:96-113 | Invariant over every history: there is a live command exactly when some noted command has survived everything since |
| DoorHistory.MeasuredStep | custom_components/roborock_plus/door_evidence.py:201-213 | One input keeps, starts or ends the stable reading, with the exact condition for each |
| DoorHistory.CommandStep | custom_components/roborock_plus/door_evidence.py:96-158 | What each kind of input does to the live command, in every state |
| DoorHistory.EstimateNeedsCommand | custom_components/roborock_plus/door_evidence.py:269-282 | An estimate that is reached is of quality estimated and rests on a command in its direction whose full travel has elapsed |
| DoorHistory.ConfirmedIsPhysical | custom_components/roborock_plus/door_evidence.py:34-42 | Confirmation never comes from a timer, an estimate or a command: the contact or measured reading of this very observation is at the endpoint |
| DoorHistory.UnblockedIsReadable | custom_components/roborock_plus/door_evidence.py:115-167 | Whatever the binding and the past: an observation whose reasons leave the controller free to act was made of a door whose sources could all be read |
| DoorHistory.RejectionSays | custom_components/roborock_plus/door_evidence.py:127-158 | A rejected observation gives both endpoints as unknown with the first applicable reason of: clock, cover, restored values, conflict |
| DoorHistory.ContactSays | custom_components/roborock_plus/door_evidence.py:217-233 | A contact endpoint is reached exactly when the contact has the configured value, not reached when it has the other, confirmed either way, and unknown without a value |
| DoorHistory.MeasuredSays | custom_components/roborock_plus/door_evidence.py:235-261 | A measured endpoint is unknown without a number in range, not reached short of the threshold, unknown while it settles and reached after |
| DoorHistory.EstimateSays | custom_components/roborock_plus/door_evidence.py:262-282 | A timed endpoint is unknown without a live command in its direction or before its full travel, and estimated after |
| DoorHistory.CommandSays | custom_components/roborock_plus/door_evidence.py:160-167 | An observation names the direction and number of the command in force, and a clean one whether estimates are accepted |
| DoorHistory.CommandLastsExactly | custom_components/roborock_plus/door_evidence.py:142-151 | A command outlasts an observation if and only if that is clean and the source of the command's direction can be read in it |
| DoorHistory.ClockStartsAfresh | custom_components/roborock_plus/door_evidence.py:169-178 | After a sane clock value only later ones are accepted; after any other, whatever comes next |
| DoorHistory.AnswerForgets | custom_components/roborock_plus/door_evidence.py:115-167 | If no measured endpoint has a settle time, any two sound pasts give the same endpoints for the same reading, for every kind of source |
| DoorHistory.SecondLookSeesTheSame | custom_components/roborock_plus/door_evidence.py:115-167 | A clean observation repeated at the same moment gives the same endpoints, for every kind of source and any earlier history |
| DoorHistory.ValidBindingIsUnderstood | custom_components/roborock_plus/door_evidence.py:188-282 | An accepted, enabled binding is never reported as misconfigured, in any state and for any reading |
| DoorHistory.ValidSourcesAreConfigured | custom_components/roborock_plus/garage_config.py:178-240 | Acceptance by validation implies every configuration check of the evidence tracker, whose own ranges are written separately |
| DoorEvidence.EvidenceTracker.NoteCommand | custom_components/roborock_plus/door_evidence.py:96-108 | New tracker state for a good, a directionless and an unidentified command, and for a bad clock |
| DoorEvidence.EvidenceTracker.Invalidate | custom_components/roborock_plus/door_evidence.py:110-113 | The command and every stable reading are dropped, the clock is kept |
| DoorEvidence.EvidenceTracker.Clock | custom_components/roborock_plus/door_evidence.py:169-178 | A clock value is accepted when it is not negative and not before the last; otherwise all is dropped and the clock starts afresh |
| DoorEvidence.EvidenceTracker.Settled | custom_components/roborock_plus/door_evidence.py:201-213 | When the timing of an endpoint starts, goes on and ends |
| DoorEvidence.EvidenceTracker.Estimate | custom_components/roborock_plus/door_evidence.py:269-282 | The refusal of an estimate, or none once the travel has elapsed |
| DoorEvidence.EvidenceTracker.EndpointFromPosition | custom_components/roborock_plus/door_evidence.py:235-261 | Answer and new state for a measured or estimated position, with the settling before the estimate |
| DoorEvidence.EvidenceTracker.EndpointFromContact | custom_components/roborock_plus/door_evidence.py:217-233 | Answer and new state for a contact |
| DoorEvidence.EvidenceTracker.EndpointAt | custom_components/roborock_plus/door_evidence.py:215-267 | Answer and new state for any source |
| DoorEvidence.EvidenceTracker.Observe | custom_components/roborock_plus/door_evidence.py:115-167 | The whole observation: order of the rejections, what each invalidates, and the conflict found after judging |
| GarageConfig.ValidateBinding | custom_components/roborock_plus/garage_config.py:178-240 | Accepts exactly the bindings in which no fault is present, returns them with their defaults, and otherwise names a fault that is present |
| GarageRequirements.AcceptedExactly | custom_components/roborock_plus/garage_config.py:136-240 | Said field by field with the ranges as numbers, independently of the faults validation names: a binding is accepted if and only if everything given in it is sound and, when it is enabled, the robot is supported and door mode, cover, both sources with what each consumes, timeout above each wait, handover and exit targets are complete |
| GarageConfig.ValidationIsIdempotent | custom_components/roborock_plus/garage_config.py:178-240 | Validating an accepted binding again accepts it unchanged |
| GarageConfig.SuggestionsComplete | custom_components/roborock_plus/garage_config.py:67-91 | Filling in the suggestions makes every required timing present and in range, changes no value, and gives a timeout strictly above both waits and at most 810 |
| GarageConfig.SuggestionsRepair | custom_components/roborock_plus/garage_config.py:67-91 | Filling in the suggestions removes exactly the faults of missing timings: no other fault disappears and none appears |
| GarageConfig.SuggestsExactly | custom_components/roborock_plus/garage_config.py:67-91 | Exactly the required timings other than travel times are suggested, with the values of the code, and a timeout |
| GarageConfig.SuggestedTimingValues | custom_components/roborock_plus/garage_config.py:67-91 | The loop over both directions computes the specified suggestions |
| GarageConfig.LongestKnown | custom_components/roborock_plus/garage_config.py:81-90 | The loop finds the longest wait among the directions that are complete |
| GarageConfig.RequiredTimingFields | custom_components/roborock_plus/garage_config.py:53-64 | The fields computed by the loop are the table's keys, in its order, that some direction consumes |
| GarageConfig.RequiredMeansConsumed | custom_components/roborock_plus/garage_config.py:53-64 | A timing is required if and only if the selected evidence consumes it |
| GarageConfig.EndpointWait | custom_components/roborock_plus/garage_config.py:117-128 | The loop gives the time the evidence of a direction may need, or none exactly when its configuration is incomplete |
| GarageConfig.Wait | custom_components/roborock_plus/garage_config.py:117-128 | No complete configuration needs more than 780 seconds |
| GarageConfig.SuggestedTimeout | custom_components/roborock_plus/garage_config.py:90-91 | The suggested timeout leaves at least 30 seconds of room and never exceeds 810 |
| GarageConfig.TimingsGiveWaits | custom_components/roborock_plus/garage_config.py:131-133 | Once all required timings are in range, both waits are known |
| GarageConfig.CheckSuppliedNumbers | custom_components/roborock_plus/garage_config.py:145-154 | Reports a fault that is present, or proves every supplied flag, number and threshold sound |
| GarageConfig.CheckSuppliedNames | custom_components/roborock_plus/garage_config.py:155-175 | Reports a fault that is present, or proves every supplied entity and choice sound |
| GarageConfig.CheckEndpoints | custom_components/roborock_plus/garage_config.py:193-209 | The same for the door mode, the cover and the two sources |
| GarageConfig.CheckPositions | custom_components/roborock_plus/garage_config.py:210-222 | The same for positions and the acceptance of estimates |
| GarageConfig.CheckTimings | custom_components/roborock_plus/garage_config.py:223-227 | The same for the required timings and the timeout |
| GarageConfig.CheckExit | custom_components/roborock_plus/garage_config.py:228-239 | The same for the controlled exit target |
| GarageConfig.CheckEnabled | custom_components/roborock_plus/garage_config.py:191-239 | The checks of an enabled binding together leave no fault out |
| StuckDetection.OscillationIsCaught | custom_components/roborock_plus/v1_stuck_detection.py:242-324 | A robot confined to the region of its first sample is reported stuck from 900 seconds on as soon as two samples in a row have a position: for every short window and radius, however often the short anchor moves, and however many samples between come without a position |
| StuckDetection.ConfinedKeepsAnchor | custom_components/roborock_plus/v1_stuck_detection.py:297-324 | Invariant behind it: the backstop anchor stays at the first sample throughout, missing positions included |
| StuckDetection.StoppedIsCaught | custom_components/roborock_plus/v1_stuck_detection.py:264-292 | A robot that stays near its first sample is reported once the short window is over |
| StuckDetection.VerdictIsSound | custom_components/roborock_plus/v1_stuck_detection.py:242-324 | When a verdict turns on in any history, there is a sample from which an unbroken stretch near it spans the window, or one from which no compared sample left the region for the backstop window; the reported time is that sample's, so the duration is at least the window |
| StuckDetection.AnchorsAreExplained | custom_components/roborock_plus/v1_stuck_detection.py:264-324 | Invariant over every history: both anchors are earlier accepted samples together with what has held since |
| StuckDetection.ShortVerdictIsSound | custom_components/roborock_plus/v1_stuck_detection.py:286-292 | The part of soundness for the short window |
| StuckDetection.BackstopVerdictIsSound | custom_components/roborock_plus/v1_stuck_detection.py:316-324 | The part of soundness for the backstop |
| StuckDetection.VerdictsAgree | custom_components/roborock_plus/v1_stuck_detection.py:215-226 | While times do not go back, a backstop verdict implies a stuck verdict and names its anchor's time, at least 900 seconds ago, and a short anchor implies a backstop anchor |
| StuckDetection.VerdictsAgreeExactly | custom_components/roborock_plus/v1_stuck_detection.py:242-324 | Over every history, whatever its times: the two verdicts agree all along if and only if no sample leaves the short radius but not the region, under a standing backstop verdict, with a time at which the backstop window was not over |
| StuckDetection.AgreementBreaksExactly | custom_components/roborock_plus/v1_stuck_detection.py:280-324 | The same for one sample, from any state in which the verdicts agree |
| StuckDetection.BackwardTimeBreaksAgreement | custom_components/roborock_plus/v1_stuck_detection.py:280-284 | Such a step exists: a concrete history with one time read backwards leaves a backstop verdict that is not stuck |
| StuckDetection.RepeatedSampleChangesNothing | custom_components/roborock_plus/v1_stuck_detection.py:264-266 | The same sample delivered again leaves the state as it is |
| StuckDetection.VerdictStands | custom_components/roborock_plus/v1_stuck_detection.py:252-284 | A verdict is cleared only by a state that need not move or by a step beyond the short radius |
| StuckDetection.VerdictExactly | custom_components/roborock_plus/v1_stuck_detection.py:242-324 | From any state: reported after a sample if and only if the robot should be moving and either the sample is within the short radius with the window over or within 3000 of the long anchor with 900 seconds over, or it was reported before and has not stepped out of the short radius |
| StuckDetection.MissingPositionExactly | custom_components/roborock_plus/v1_stuck_detection.py:264-270 | A sample without a position keeps the verdict and the long measurement, ends the short one, and a position with the same time is not judged any more |
| StuckDetection.OptionsAreKept | custom_components/roborock_plus/v1_stuck_detection.py:149-169 | Usable options are kept as they are, unusable ones replaced by 120 seconds and 200 units |
| StuckDetection.DockedRobotIsNeverStuck | custom_components/roborock_plus/v1_position_trust.py:49-53 | After any history, an observation in a docked state reports nothing and forgets everything: no state is both docked and assessed for movement |
| RobotStates.TablesExactly | custom_components/roborock_plus/v1_task_state.py:7-34 | How the tables of travelling, docked, returning, parked and task states lie to each other, state by state |
| StuckDetection.ResolveOptions | custom_components/roborock_plus/v1_stuck_detection.py:149-169 | Every stored option ends up in range |
| StuckDetection.StuckTracker.Observe | custom_components/roborock_plus/v1_stuck_detection.py:242-295 | Whole new state and answer for every kind of sample |
| StuckDetection.StuckTracker.ObserveBackstop | custom_components/roborock_plus/v1_stuck_detection.py:297-324 | Whole new state of the long-horizon rule |
| StuckDetection.StuckWatch.ObserveStuckDetection | custom_components/roborock_plus/coordinator.py:429-474 | When an event is fired and what it reports: state, position, whole seconds and reason |
| StuckDetection.OneEventPerStretch | custom_components/roborock_plus/coordinator.py:453-474 | Over every history exactly one event is fired per maximal stretch of stuck observations, at its start, with that verdict's duration and reason |
| StuckDetection.EventsDescribeSamples | custom_components/roborock_plus/coordinator.py:459-474 | Every event carries state and position of the sample that started its stretch, the whole seconds since the verdict's anchor, and trapped exactly for a backstop verdict |
| StuckDetection.EventsReportLongEnough | custom_components/roborock_plus/coordinator.py:459-474 | Every event reports at least the window, and one that says trapped at least 900 seconds |
| MapRender.PatchRefinesBlockUpdate | custom_components/roborock_plus/v1_map_render.py:78-165 | On the serialisation of any list of blocks, patching gives the serialisation of the same list with only the first robot block's eight coordinate bytes replaced, reading it back gives the position, and without such a block nothing is found |
| MapRender.BlocksRefine | custom_components/roborock_plus/v1_map_render.py:93-135 | The byte walk visits the serialised blocks one by one and stops at the first of the robot type |
| MapRender.FirstRobotIsFirst | custom_components/roborock_plus/v1_map_render.py:117-124 | The block found is the first of its type, and if that one is too short no other is taken |
| MapRender.BrokenMapIsLeftAlone | custom_components/roborock_plus/v1_map_render.py:93-135 | A map whose serialised blocks give way, before any robot block, to bytes without a whole header, with a header length of 0 or above 255, no data, or data that is cut off, is left alone |
| MapRender.MapWithoutBodyIsLeftAlone | custom_components/roborock_plus/v1_map_render.py:85-91 | So is a map whose own header is cut off, gives no length or reaches to its end |
| MapRender.FindRobotPositionBlock | custom_components/roborock_plus/v1_map_render.py:78-135 | The loop, with its stride cut to a byte, finds the same block as a walk with the full stride; the range it returns lies inside the bytes |
| MapRender.RoundTripNeedsFullHeader | custom_components/roborock_plus/v1_map_render.py:138-183 | For arbitrary bytes below 4 GiB less 16 MiB: reading after patching returns the position for every pair of 32-bit coordinates if and only if the header of the found block has at least eight bytes |
| MapRender.ReadAfterPatch | custom_components/roborock_plus/v1_map_render.py:138-183 | With such a header, for bytes of any size and earlier blocks of any shape, reading after patching returns the position |
| MapRender.ShortHeaderLosesBlock | custom_components/roborock_plus/v1_map_render.py:148-165 | With a shorter header, writing (-1, -1) makes the block disappear |
| MapRender.ShortHeaderCanLoseTheBlock | custom_components/roborock_plus/v1_map_render.py:148-165 | A concrete sixteen-byte map in which writing (0, 0) does too |
| MapRender.PatchKeepsTheWalk | custom_components/roborock_plus/v1_map_render.py:138-165 | A patch leaves the walk as it was, even past earlier headers that overlap their own data |
| MapRender.LastPatchWins | custom_components/roborock_plus/v1_map_render.py:138-165 | After two patches the bytes are those of the second alone |
| MapRender.WriteInt32 | custom_components/roborock_plus/v1_map_render.py:157-165 | Four bytes are replaced by the encoding of the number, all others stay |
| MapRender.PatchRobotPosition | custom_components/roborock_plus/v1_map_render.py:138-165 | The in-place surgery has the specified result in each of its three outcomes; length and map header are conserved |
| MapRender.SignedRoundTrip | custom_components/roborock_plus/v1_map_render.py:157-183 | Decoding the four bytes of any 32-bit number gives that number |
| MapRender.ReadAfterPatchWrapped | custom_components/roborock_plus/v1_map_render.py:66-75 | The round trip holds through the compression wrapper, given that decompressing undoes compressing |
| MapRender.RedrawSettles | custom_components/roborock_plus/v1_map_render.py:186-220 | A marker drawn at the chosen position asks for no further redraw |
| MapRender.RedrawExactly | custom_components/roborock_plus/v1_map_render.py:201-220 | A redraw is asked for if and only if a trusted place is known and nothing is drawn, or the place is the dock and what is drawn is more than 50 away; its target is the place with the fractions dropped |
| MapRender.ServedImageShowsTarget | custom_components/roborock_plus/v1_map_render.py:257-274 | For arbitrary bytes, an image is only ever parsed from the patched map, and that map reads back as the target |
| MapRender.PatchableMapIsServed | custom_components/roborock_plus/v1_map_render.py:223-274 | On a map with a full header the read-back check never rejects |
| MapRender.RedrawRaisesExactlyWhen | custom_components/roborock_plus/v1_map_render.py:252-260 | Redrawing raises instead of keeping the image if and only if decompressing fails with an error that is not caught, or a block is found and the target does not fit in four signed bytes |
| MapRender.RedrawCanRaise | custom_components/roborock_plus/v1_map_render.py:252-260 | A concrete plain map and a charger beyond four signed bytes on which redrawing raises, whatever the decompressor and the parser |
| PositionTrust.DockedMeansAtCharger | custom_components/roborock_plus/v1_position_trust.py:113-152 | A trusted position in a docked state lies within the tolerance of the charger |
| PositionTrust.ResolveExactly | custom_components/roborock_plus/v1_position_trust.py:113-152 | When a position is trusted, and which: as it is away from the dock; on the dock itself if within 1000 of the charger, and the charger otherwise |
| PositionTrust.TrustedExactly | custom_components/roborock_plus/garage_runtime.py:180-205 | A position counts if and only if the map is fresh, the position trusted, the zone proper and around the charger, and, while charging, the position within 1000 of it |
| PositionTrust.InsideMeansInside | custom_components/roborock_plus/garage_runtime.py:203-209 | Inside or outside is known exactly for a counting position with fresh sample and stamped map, and inside is within the zone |
| PositionTrust.DockedNeverOutsideExactly | custom_components/roborock_plus/garage_runtime.py:180-209 | For a proper zone around the charger: no robot with a docked status or a charging sample is ever read as outside if and only if the zone covers the square of half-side 1000 around the charger |
| PositionTrust.DockedIsNeverOutside | custom_components/roborock_plus/garage_runtime.py:180-209 | Under that premise it holds whether the status or the sampled state is docked |
| PositionTrust.NarrowZoneLosesDockedRobot | custom_components/roborock_plus/garage_runtime.py:180-209 | In any narrower zone a robot washing its mop within the tolerance is read as outside |
| PositionTrust.ActiveTaskNeedsRecentRead | custom_components/roborock_plus/coordinator.py:522-572 | In every run of the read schedule, while the live status says a task is active, a position is trusted only if some read brought it in at most two active intervals ago |
| PositionTrust.PositionAgeExactly | custom_components/roborock_plus/garage_runtime.py:163-215 | While the sampled status says a task is active, a robot can be read as outside from a position of a given age if and only if the age is within two active intervals or the live status, which may have moved on, says there is no task |
| MapPosition.OfficialCloudIsSpared | custom_components/roborock_plus/coordinator.py:378-415 | In every run against the official cloud, the background reads that start within any period are at most that period over 30 seconds plus one, whatever the option says, however it changes, and whatever full updates and on-demand reads come between |
| MapPosition.ScheduleKeepsDistance | custom_components/roborock_plus/coordinator.py:378-415 | Invariant over every run: consecutive background reads start at least 30 seconds apart and the remembered attempt is no earlier than the last |
| MapPosition.FreshExactlyWhenReadRecently | custom_components/roborock_plus/coordinator.py:522-539 | While a task runs, the position is fresh if and only if some read in the history succeeded no more than two active intervals ago |
| MapPosition.UpdateIsLastSuccess | custom_components/roborock_plus/coordinator.py:417-427 | The remembered time is that of the last read that succeeded; failures and polls do not move it |
| MapPosition.ResolveIntervals | custom_components/roborock_plus/v1_map_position.py:88-114 | Idle is never faster than active, and the official cloud is never polled faster than every 30 seconds |
| MapPosition.IntervalsExactly | custom_components/roborock_plus/v1_map_position.py:88-114 | The intervals in seconds for every option and either kind of server |
| MapPosition.ReadIsDueExactly | custom_components/roborock_plus/v1_map_position.py:130-146 | A poll starts a background read if and only if none is running and the active or idle interval, whichever the task calls for, is over since the last attempt |
| MapPosition.FullUpdateDefersRead | custom_components/roborock_plus/coordinator.py:240-255 | A full update counts as an attempt and puts off the next background read by the whole interval |
| MapPosition.DoneReadMakesRoom | custom_components/roborock_plus/coordinator.py:398-415 | A read that is done, with or without success, makes room for the next one |
| MapPosition.Coordinator.ScheduleMapPositionUpdate | custom_components/roborock_plus/coordinator.py:378-415 | When a background read starts, and that one still running is not doubled |
| MapPosition.Coordinator.FinishMapPositionUpdate | custom_components/roborock_plus/coordinator.py:417-427 | Only a successful read moves the time of the position |
| MapPosition.Coordinator.UpdateMap | custom_components/roborock_plus/coordinator.py:240-255 | A full refresh counts as attempt and as success |
| MapPosition.Coordinator.IsMapPositionFresh | custom_components/roborock_plus/coordinator.py:522-539 | A fresh answer during a task bounds the age of the position by two active intervals |

## Left out

- The Home Assistant side: entities, services, forms, storage, the panel, contexts, publishing and notifications.
- Two sequences at once, and the phase feedback of `door_observation` (`garage_runtime.py:133-141`): door readings are given.
- The stage entry (`async_start_stage`, `_await_stage_completion`): it hands over a callable that does not fit the call of it.
- GarageRuntime.GarageRuntime.AsyncSend: takes the controlled exit before a new clean as switched off.
- The controlled exit (`garage_runtime.py:485-540`): assumed off; it reads a field that robot readings do not have and can only time out.
- `async_routine`: it opens the door like a clean and follows no sequence.
- Departure without pause and resume callables (`garage_door.py:301-308`): no sequence calls it so.
- Phase synchronisation at rest, `passage_allowed`, and the reset, unload and restore entries of the runtime: reporting and lifecycle.
- Permission and unloading are read as values of the moment; the entity lookup behind them is not modelled.
- Ownership of covers, the choice of the stored binding and migration of older settings (`garage_config.py:243-310`).
- Texts that Python's `float` would accept as an operation timeout of an unvalidated binding: a text there is a failure.
- Infinities and not-a-numbers as coordinates, readings and options; numbers in a binding that are not finite are `Other`.
- Rounding of floating-point arithmetic and of date-times.
- Compression beyond two laws, and the drawing of the image: `parse` is a parameter.
- `clean_command_watch.py`, `resume_logic.py` and `safe_zone.py`: small tables and single loops.
- StuckDetection.StuckWatch.ObserveStuckDetection: the second clock reading of a report is taken equal to the first; the entity and entry identifiers in the report are left out.
- MapRender.RoundTripNeedsFullHeader: bounds the size of the map, because the losing position makes a data length of about 4 GiB; the direction for full headers has no bound (`ReadAfterPatch`).
- StuckDetection.VerdictIsSound: claims nothing for samples that the backstop does not compare, the first after a gap and those the short window answers.
