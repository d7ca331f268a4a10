# Babycat: verified model of its concurrent protocols

Babycat is a home camera system of four Python processes: a router that owns accounts and relays
streams, an analyzer that runs a vision-language model over frames, a recorder that keeps a segment
buffer and cuts event clips, and a streamer that connects the camera. Much of their code is
about races: which request wins, who still has to clean up, which number stays right when two threads
meet. This project models those protocols in Dafny and proves what they keep over every run.

Each protocol is a step machine. A step is what the code does without being interruptible: one committed
statement group, one critical section, one write of a flag. `Enabled` says when a step is possible,
`After` what it does, and runs are arbitrary sequences of steps by any number of threads, with crashes
where the code can crash. Objects that the source updates in place are classes as well, and their methods
are proved against the very functions the machines step by.

| file | models | cites |
|---|---|---|
| `accounts.dfy` | user and refresh-token tables, and the credential operations run alone | router/auth.py, router/main.py |
| `limiter.dfy` | the login limiter over time | router/auth.py |
| `limiter_race.dfy` | the same with attempts in flight at once | router/auth.py |
| `sessions.dfy` | logins, refreshes, logouts and password changes interleaving under SESSION_LOCK | router/auth.py, router/main.py |
| `requests.dfy` | what each of those requests comes to when nothing disturbs it | router/auth.py, router/main.py |
| `passwords.dfy` | whose password a session stands for, with passwords checked and written outside the lock | router/auth.py |
| `whep.dfy` | the registry of media sessions: register, recheck, sweep, close | router/main.py |
| `router.dfy` | the two protocols above over one table of epochs | router/main.py |
| `relay_guard.dfy` | relays that end when their session is replaced | router/main.py, router/proxy.py |
| `pipeline.dfy` | analysis start, stop, watchdog and boot around two locks and a flag | analyzer/main.py, analyzer/server.py |
| `flag_file.dfy` | the analysis flag in the settings file, over that protocol | analyzer/server.py, analyzer/settings.py |
| `vlm.dfy` | the model child process, switching with rollback, and the displayed state | analyzer/vlm_worker.py, analyzer/main.py |
| `markers.dfy` | where a generated text is cut | analyzer/vlm_worker.py |
| `encoder.dfy` | the generations of the segment encoder thread | recorder/segments.py |
| `rollover.dfy` | selecting segments for a window, and purging old ones | recorder/rollover.py |
| `clip_storage.dfy` | capacity pruning of clips and of their history rows | recorder/clip_storage.py, recorder/finalize.py |
| `clip_counter.dfy` | the in-memory clip counter against the directory | recorder/clip_storage.py, recorder/main.py |
| `cooldown.dfy` | the event gate and the merged state file across crashes | recorder/finalize.py, recorder/state_store.py |
| `summary.dfy` | label counts per hour or day | recorder/main.py |
| `profiles.dfy` | normalisation and registration of camera profiles | streamer/camera.py |
| `camera.dfy` | streaming start, stop and restore under the runtime lock | streamer/camera.py |
| `patrol.dfy` | the preset patrol beside manual moves | streamer/ptz.py |
| `options.dfy`, `text.dfy` | Option and Result; stripping of blanks | |

Some state fields do not exist in the program. They record what happened (who minted a token, which
sessions leaked, whether a patch was misreported) so that a theorem can speak of it; steps write them
and no step's outcome depends on them. The declaration of each state says which they are.

## Where the code differs from what it says

- analyzer/main.py:497-501 says frames of an earlier pipeline never feed a judgment, because the ring is
  cleared at every start. That holds exactly when no other thread has a withdrawn pipeline in hand at that
  moment (`Pipeline.RingIsPureIff`), and a start that follows a stop closely enough gets a frame of the old
  camera into its ring (`Pipeline.OlderFrameGetsIn`).
- analyzer/main.py:232-240: after a switch and its rollback have both failed, a later respawn makes the
  previous model work again, but the error stays on display, and asking for that model is ignored
  because it is the holder's. Only another model clears it: `Vlm.RecoveryGoesUnseen`, `Vlm.ErrorStaysShown`,
  `Vlm.AnotherModelClearsTheError`; such a state is reached: `Vlm.UnseenRecoveryIsReached`.
- analyzer/server.py:61-66 reads the flag for the file before the file's own lock is taken. Once quiet the file has the
  flag that is set exactly when the last save to end left it so (`FlagFile.FileAgreesIff`). After a start whose save is
  overtaken by a stop's it says active for good: `FlagFile.StoppedButSavedAsActive`.
- router/auth.py:188-207 reads and writes the counter in two statements. As long as no update is lost, a window of k lockout
  lengths holds at most k times nine plus the attempts in flight at once (`LimiterRace.ConcurrentWindowBound`);
  updates that are lost let more through: `LimiterRace.PairsEscape`.
- recorder/clip_storage.py:52: the counter is exact throughout a run if and only if no discount of it finds the counter at
  zero and no finalizer finds its clip gone when it measures it (`ClipCounter.RunExactIff`). Both need a clip
  deleted before it was counted, and both happen: `ClipCounter.DeletionBeforeCountOvercounts` and
  `ClipCounter.DeletionBeforeMeasureUndercounts`.
- recorder/rollover.py:96-110: purging beside a pending selection is harmless for segments of regular length
  (`Rollover.PurgeCommutesWithSelection`), and in general exactly when every segment unlinked had ended before
  the window (`Rollover.PurgeCommutesIff`). A segment stretched by a stalled camera can be lost
  (`Rollover.StretchedSegmentIsLost`).
- recorder/finalize.py:188-220: ffmpeg reads the selected segments while the recorder goes on purging. They are all
  on disk exactly until one retention after the start of the first that can be unlinked (`Rollover.SelectedStayIff`), which leaves
  a regular selection a little more than one segment time (`Rollover.OneSegmentTimeToRead`), far less than the
  timeout ffmpeg gets: `Rollover.SlowReadLosesASegment`.
- router/auth.py:241-256 and 341-359 check passwords, and write new ones, outside SESSION_LOCK. A session stands for
  the current password exactly when its login found on file what it had verified (`Passwords.AcceptedPasswordIff`).
  A login that waits out a password change does not (`Passwords.LateLoginKeepsTheOldPassword`), and a change that
  dies between its two commits leaves the old session in place (`Passwords.CutOffChangeKeepsTheOldSession`).
- streamer/camera.py:163-181: a start writes back the patrol setting it read, so one saved while it runs
  survives exactly when it is what the start writes (`Camera.SavedPatrolSurvivesIff`); it does get lost
  (`Camera.SavedPatrolIsLost`).
- streamer/camera.py:373-376 says stream and PTZ target never point at different cameras. After a start or a restore whose
  patch took effect with its reply lost they are on one camera if and only if PTZ was on that of the profile
  being connected, or off (`Camera.LostReplyAgreesIff`). A change of camera makes them differ
  (`Camera.LostReplySplitsTheCameras`), and so does a restore after a start that could not write the slot
  (`Camera.LostRestoreSplitsTheCameras`). As long as no reply is lost they agree: `Camera.StreamAndPtzAgree`.
- streamer/camera.py:174-181: a start that cannot write the slot has already switched source and PTZ. They then follow the
  slot if and only if streaming was active with the same connection (`Camera.FailedWriteFollowsIff`), and
  need not: `Camera.SecondStartCannotWrite`.
- streamer/ptz.py:335-336 says a tick is skipped during a manual move. The hold is looked up before the move is
  issued, so a move command in between does not stop it: every turn was polled with nothing held, and it is issued
  during a hold if and only if a command came after its poll (`Patrolling.TurnsArePolledFree`,
  `Patrolling.TurnDuringAHoldIff`), which happens (`Patrolling.PatrolOverridesAManualMove`).
- streamer/ptz.py:286-288 says the displayed patrol slot is kept when the patrol is turned off, and :303-304 that the
  camera then returns to preset 1. set_patrol does set the slot to preset 1, or to none without one, but a tick that
  has read the patrol as on goes on to its own preset and displays that. The patrol stays quiet until it is
  turned on again if and only if there is no such tick (`Patrolling.OffStaysQuietIff`); there can be one:
  `Patrolling.TurnAfterTurningOff`. While it is on the display follows the turns: `Patrolling.DisplayFollowsTheTurns`.
- streamer/camera.py:298-340: an address or user name sent as null is not refused as missing but read as the word
  None (`Profiles.NullIsReadAsAWord`).
- router/auth.py:313-326: a logout accepts a refresh token past its expiry as long as no purge has removed it
  (`Accounts.Database.Logout` has no expiry condition), while a refresh does not.

## Model

| member | source | states |
|---|---|---|
| `Accounts.Lockout` | router/auth.py:183-185 | the seconds answered are positive exactly inside a lockout and overshoot its rest by at most one second |
| `Accounts.Database.RecordFailure` | router/auth.py:188-207 | only the named account changes: below nine failures it counts one more, at nine it starts over and is locked for half an hour from now, which is what it answers |
| `Accounts.Database.Authenticate` | router/auth.py:227-263 | granted exactly for the right password outside a lockout; a granted login leaves its own session as the account's only one, with its expiry, every earlier access token dead and every other account untouched; a refused one counts a checked failure and no other; and how many seconds of lockout are answered |
| `Accounts.Database.ReplaceSession` | router/auth.py:253-263 | the part under SESSION_LOCK: one epoch further, a token of that epoch is accepted and none of an earlier one, and the one active refresh token of the account is the new one or there is none |
| `Accounts.Database.Refresh` | router/auth.py:284-310 | answered exactly for an active, unexpired token; one token of the same account goes out and one with a full expiry comes in, other accounts keep theirs |
| `Accounts.Database.Logout` | router/main.py:318-338 | who is identified by which credential, and that exactly that account's epoch moves |
| `Accounts.Database.ChangePassword` | router/auth.py:341-360 | succeeds exactly with the current password; then no credential of the account issued before is accepted, others keep theirs |
| `Accounts.Database.BumpEpoch` | router/auth.py:148-150 | one account's epoch moves by one; an unknown name changes nothing |
| `Limiter.RunIsSpaced` | router/auth.py:183-207 | in any run without a success, ten checked failures are followed by a whole lockout before the next |
| `Limiter.FailuresAreCounted` | router/auth.py:188-207 | checked failures are counted one by one, the one that makes ten locks the account for half an hour from its own time and clears the count, and unchecked attempts change nothing |
| `Limiter.TenPerLockout` | router/auth.py:188-207 | 10k consecutive failures span at least k lockouts |
| `Limiter.WindowBound` | router/auth.py:183-249 | any window of k lockout lengths, wherever it starts, holds at most 10k checked failures, and the stored counter stays below ten |
| `LimiterRace.FailuresAreSpaced` | router/auth.py:227-249 | with at most m attempts in flight and no update lost, failures are recorded in order and the m-th after one that locks comes a whole lockout later |
| `LimiterRace.ConcurrentWindowBound` | router/auth.py:183-249 | then any window of k lockout lengths, wherever it starts, holds at most k times nine plus m failures, and the stored counter stays below ten; one at a time that is ten |
| `LimiterRace.UndisturbedAttempt` | router/auth.py:227-249 | an attempt nothing comes between counts one failure, and the tenth sets a lockout of half an hour |
| `LimiterRace.LockoutRunsOut` | router/auth.py:183-185 | after any wait passwords are checked again if and only if the lockout has run out by then |
| `LimiterRace.DeadAttemptIsNotCounted` | router/auth.py:241-249 | an attempt that dies before its write leaves the counter alone |
| `LimiterRace.PairCountsOnce` | router/auth.py:192-207 | two attempts that read the counter before either writes it are counted as one |
| `LimiterRace.PairsEscape` | router/auth.py:192-207 | so up to eighteen failures at one moment, never more than two in flight, lock nothing |
| `Sessions.EffectKeepsLedger` | router/auth.py:256-263 | each statement group under the lock keeps epochs, refresh rows and chains in order |
| `Sessions.SwapKeepsLedger` | router/auth.py:294-310 | revoking a token and issuing another to its account leaves at most one active token of the account, the last of its login's chain; that a refresh does both is `Requests.UndisturbedRefresh` |
| `Sessions.StepKeepsInv` | router/main.py:284-353 | every step of any request, deaths and purges outside the lock included, keeps the protocol's invariant |
| `Sessions.OneLoginPerAccount` | router/auth.py:256-263 | in every reachable state each accepted access token and each unrevoked refresh token belongs to the account's latest login; at most one refresh token per account; no minted epoch is ahead |
| `Sessions.RenewalsFormAChain` | router/auth.py:294-310 | a login's refresh tokens form a chain without repeats of which only the last can be active, and chains of different logins share nothing |
| `Sessions.ExchangedAtMostOnce` | router/auth.py:294-310 | a token once exchanged is never exchanged again, in any later run and by any request |
| `Sessions.DeadStaysDead` | router/auth.py:172-177 | a passed epoch or expiry, and a revoked or purged refresh token, is never accepted again in any later state |
| `Sessions.PathAdvances` | router/auth.py:148-150 | over any run time and epochs only grow and no issued token becomes active again, so an epoch once passed never matches again |
| `Sessions.DeadCredentialsAreInert` | router/main.py:318-338 | a logout or refresh presenting only dead credentials, interleaved with anything, moves no epoch and changes the worth of no credential |
| `Sessions.LoginTakesOver` | router/auth.py:256-263 | the token a login mints is accepted, and nothing minted for the account by another login is |
| `Sessions.BumpEndsAccess` | router/auth.py:148-150 | after any login, logout or password change moved an account's epoch, every access token minted for it before is dead, and after a login or password change every refresh token too |
| `Sessions.LogoutEndsTheSessionIff` | router/main.py:326-338 | a logout ends every access token of the account it identifies, and leaves no active refresh token of it if and only if the one presented was the only one |
| `Requests.UndisturbedLogin` | router/auth.py:251-263 | a login takes the account over: one epoch further, one access token that is accepted, every refresh token of the account revoked, a new one exactly if it asked to be kept, nobody else touched |
| `Requests.TokensAsAsked` | router/auth.py:262 | whatever else goes on, no login ends with a refresh token it did not ask for, or without one it did |
| `Requests.UndisturbedRefresh` | router/main.py:299-315 | a refresh with an exchangeable token spends it; the new one can be exchanged by the same account, an access token of the same login is accepted, the login's chain is one longer, and no other token is worth more or less |
| `Requests.RefusedRefresh` | router/auth.py:294-302 | a refresh with any other token mints nothing and changes the worth of no credential |
| `Requests.LateRefresh` | router/auth.py:296-302 | nor is a token exchanged that expires between the purge and the look at it |
| `Requests.UndisturbedLogout` | router/main.py:318-338 | a logout moves the epoch of the account it identifies by one and no other, revokes the refresh token presented and no other, and mints nothing |
| `Requests.UndisturbedChange` | router/auth.py:341-360 | a password change leaves the new password on file, the account one epoch further and no refresh token of it unrevoked; other accounts keep theirs |
| `Requests.TimeEndsCredentials` | router/auth.py:301 | time alone ends the credentials whose expiry it passes, and no others |
| `Requests.PurgeGoesUnnoticed` | router/auth.py:284-291 | the purge takes exactly the expired and revoked rows, so that no credential is worth more or less |
| `Passwords.AcceptedPasswordIff` | router/auth.py:241-263 | with no change of the password half done, an accepted access token descends from a login with the password now on file if and only if that login found on file, when it took the account over, what it had verified before |
| `Passwords.RenewablePasswordIff` | router/auth.py:294-310 | the same for every refresh token that can still be exchanged |
| `Passwords.StepKeepsKeys` | router/auth.py:341-360 | every step keeps, for each account with a usable token, that its latest login found the password on file or a written change is still to be bumped, under way or cut off |
| `Passwords.LateLoginKeepsTheOldPassword` | router/auth.py:241-256 | a run to a quiet state in which the one accepted session was verified with the password before the change |
| `Passwords.CutOffChangeKeepsTheOldSession` | router/auth.py:350-359 | a run in which a change dies between its two commits and the old password's session stays accepted |
| `Whep.HoldSurvives` | router/main.py:221-243 | a session in some request's hands stays there until it is closed, leaked, or registered by the opener that still has to recheck it |
| `Whep.RowSurvives` | router/main.py:199-209 | a registry row that disappears is in the hands of the one who removed it, or leaked by ageing; that a close removes it is `Whep.UndisturbedClose` |
| `Whep.AnswerSurvives` | router/main.py:212-243 | whoever answers for a stale session, each step passes that responsibility on or discharges it |
| `Whep.StepKeepsInv` | router/main.py:186-243 | every step keeps every live session covered and every stale one answered for |
| `Whep.QuietSessionsAreRegistered` | router/main.py:212-218 | with no request in flight a live session is registered or leaked, and a stale one is excused by a named fault |
| `Whep.NoStaleSessionLeft` | router/main.py:186-243 | in a run without faults, once quiet, exactly registered sessions of the current epoch are live |
| `Whep.UndisturbedOpening` | router/main.py:626-641 | an opening whose account is not replaced meanwhile ends live, registered and current |
| `Whep.UndisturbedClose` | router/main.py:649-654 | a close that nothing disturbs ends the session, takes its row out if it is that account's, and leaves every other session and row alone |
| `Whep.OvertakenOpeningCloses` | router/main.py:212-218 | an opening whose session was replaced meanwhile closes what it set up, and everything else registered of the account by then |
| `Whep.SweepCloses` | router/main.py:221-243 | a sweep and its deletes take exactly the registered sessions of the account and their rows |
| `Whep.RefusedOpeningLeavesNothing` | router/main.py:626-641 | an opening that is refused upstream leaves everything as it was |
| `Whep.EndedSessionsStayEnded` | router/main.py:626-641 | a session that has ended upstream stays ended over any later run |
| `Whep.AgeingForgetsTheOld` | router/auth.py:284-291 | the purge forgets exactly the registry rows older than a day, and closes nothing |
| `Whep.ReplacementClosesTheAccount` | router/main.py:221-243 | from any quiet reachable state one replacement closes every session of the account but leaked ones, and no registered one of others |
| `Router.EpochsMoveTogether` | router/main.py:283-353 | the epochs of the account machine move exactly at its bump steps, and tokens once minted stay on record |
| `Router.MediaKeepsProvenance` | router/main.py:626-641 | every live stream and every opening descends from a token some login minted |
| `Router.StepKeepsInv` | router/main.py:283-353 | account and media steps together keep both protocols' invariants over one table of epochs |
| `Router.RunsProject` | router/main.py:283-353 | seen from the accounts or from the streams, a run of the router is a run of that protocol, with every epoch that an account step moves reaching the streams as a bump; so all theorems of either hold of it |
| `Router.ReplacedStreamsAreAnswered` | router/main.py:626-654 | in every interleaving of logins, logouts, password changes, openings and closes, a live stream of a replaced session has somebody obliged to close it, or a named fault |
| `Router.LiveStreamsBelongToTheLatestLogin` | router/main.py:212-218 | with no media request in flight a live stream not excused by a fault is registered and descends from the account's latest login |
| `Router.EveryStreamHasALogin` | router/main.py:626-641 | every live stream has a minted token behind it |
| `RelayGuard.Relay` | router/main.py:159-173 | what is passed on is a prefix of the stream, exactly up to the first failed comparison if the consumer stays, and the inner stream is closed however it ends |
| `RelayGuard.RevocationLatency` | router/proxy.py:103-120 | along any run of the account protocol that moves an account's epoch past a stream's, no chunk of it is passed on an interval or more after that, or after the start of a stream that starts stale |
| `RelayGuard.CutsOnlyReplacedSessions` | router/main.py:159-173 | a relay that stops short did so at a chunk for which the epoch read was not the stream's |
| `RelayGuard.CutsAnIntervalLater` | router/main.py:159-173 | a relay is cut at the first chunk an interval or more past the last comparison that succeeded, or past the start: epochs are compared no more often than that |
| `Pipeline.StepKeepsOwners` | analyzer/main.py:470-548 | every playing pipeline is referenced or in the hands of one thread that will stop it |
| `Pipeline.StepKeepsStops` | analyzer/main.py:528-548 | a clear flag with a pipeline up or coming up is always some stop's unfinished business |
| `Pipeline.StepKeepsStarts` | analyzer/main.py:479-520 | a set flag without a pipeline is always some start's unfinished business, a failed build or the boot |
| `Pipeline.EveryPipelineIsAccountedFor` | analyzer/main.py:470-548 | each pipeline ever set playing is the referenced one, held by exactly one thread about to stop it, or stopped |
| `Pipeline.LatestFlagWins` | analyzer/server.py:242-271 | booted and with no handler in flight, a pipeline is referenced exactly when the flag is set unless the latest build raised, and nothing else plays |
| `Pipeline.UndisturbedStart` | analyzer/server.py:242-260 | a start that nothing disturbs ends with the flag set, a new pipeline referenced and playing over an empty ring, the old one stopped, and both locks free |
| `Pipeline.UndisturbedWatchdog` | analyzer/main.py:583-600 | a watchdog restart with the flag set ends the same way: a new pipeline referenced and playing, the old one stopped |
| `Pipeline.UndisturbedStop` | analyzer/server.py:265-271 | a stop ends with the flag clear, nothing referenced and the old pipeline stopped |
| `Pipeline.FailedBuildLeavesNothing` | analyzer/main.py:479-520 | a build that raises leaves nothing referenced, the locks free and the flag set |
| `Pipeline.EarlyStartIsHonoured` | analyzer/pipeline_lifecycle.py:25-42 | a start while the model is still loading builds nothing, and the boot thread then builds the pipeline |
| `Pipeline.RingIsPureIff` | analyzer/main.py:497-506 | clearing the ring at a start keeps other pipelines' frames out until the next build if and only if no other thread has a pipeline in hand |
| `Pipeline.BuildWhileAnotherIsHeld` | analyzer/main.py:528-548 | a run from the start of the process to a build while a stop still has the old pipeline playing in hand |
| `Pipeline.OlderFrameGetsIn` | analyzer/main.py:497-506 | and on to a frame of the old pipeline as the only one in the new one's ring |
| `Pipeline.OnlyOneStays` | analyzer/main.py:497-506 | as long as one pipeline is the only one that plays, only its frames enter the ring |
| `FlagFile.RunsProject` | analyzer/server.py:242-271 | seen without the file a run is a run of the pipeline protocol, so that all its theorems hold beside the saves |
| `FlagFile.FileAgreesIff` | analyzer/settings.py:150-166 | once no handler is in flight, the file has the flag that is set in memory if and only if the last save to end had left in it what was set at that moment |
| `FlagFile.FilePipelineAndFlagAgree` | analyzer/server.py:61-66 | where every save writes what is set as it writes, once booted and quiet file, flag and pipeline agree unless the latest build raised |
| `FlagFile.UndisturbedRequestIsSaved` | analyzer/server.py:61-66 | a start or stop nothing disturbs leaves in the file the flag it set |
| `FlagFile.FailedSaveLeavesTheFile` | analyzer/settings.py:150-166 | a save that fails leaves the file as it was |
| `FlagFile.StoppedButSavedAsActive` | analyzer/server.py:61-66 | a run from any start of the process to a quiet state after a stop in which the file says active |
| `Vlm.VlmProcess.Stop` | analyzer/vlm_worker.py:247-257 | process and connection go together, the remembered model stays, an unkillable child is on record |
| `Vlm.VlmProcess.Spawn` | analyzer/vlm_worker.py:261-291 | succeeds exactly when the child reports ready; a failure leaves the manager stopped, with the model it remembered |
| `Vlm.VlmProcess.Switch` | analyzer/vlm_worker.py:212-220 | afterwards a live connected child of the new model, or none and the previous model still remembered; at most the old and the new child can have escaped a kill |
| `Vlm.VlmProcess.Infer` | analyzer/vlm_worker.py:222-245 | when an answer comes back; that a crashed child is replaced by a new one for the same model, a healthy one is left alone and a broken transport drops the child; that the remembered model never changes |
| `Vlm.StepKeepsManager` | analyzer/vlm_worker.py:186-291 | at each step of a launch, stop or inference, every running child is the manager's own or escaped a kill, and between calls connection and process are both there or both not |
| `Vlm.StepKeepsAgreement` | analyzer/main.py:213-245 | at each step of a switch, a rollback or a respawn, which model the display, the holder, the manager and the child have |
| `Vlm.ReadyModelsAgree` | analyzer/main.py:213-245 | in every reachable state that reads "ready", the displayed model, the holder's, the manager's and every controllable child's are one |
| `Vlm.OneChildAtATime` | analyzer/vlm_worker.py:186-197 | in every reachable state at most one child runs that could be killed |
| `Vlm.HolderNamesTheManagersModel` | analyzer/main.py:265-271 | at every worker iteration, through failed switches, rollbacks and respawns, the holder's name is the model a respawn would load, and the state is "ready" exactly when that model is shown |
| `Vlm.SwitchInSteps` | analyzer/vlm_worker.py:212-220 | a whole call of Switch changes the manager as the worker's stop, launch and report steps do; where the worker goes from there is `Vlm.UndisturbedSwitch`, `Vlm.RollbackRestores` and `Vlm.BothLoadsFail` |
| `Vlm.BootLoads` | analyzer/main.py:658-668 | a default model that loads runs, is shown and reads "ready" |
| `Vlm.BootFails` | analyzer/main.py:658-668 | one that does not leaves "error" and no child |
| `Vlm.UndisturbedSwitch` | analyzer/main.py:213-245 | a switch to a model that loads ends with it running, remembered, held and shown, in "ready" |
| `Vlm.RollbackRestores` | analyzer/main.py:229-240 | when the target does not load and the previous model does, that one runs again, is held and shown, in "ready" |
| `Vlm.FailedOnlyAfterAFailedRollback` | analyzer/main.py:229-240 | in every reachable state at a worker iteration another model than the holder's is displayed if and only if the latest switch and its rollback both failed; otherwise the state is "ready" |
| `Vlm.UndisturbedInference` | analyzer/vlm_worker.py:222-245 | an answer from a running child leaves child, models and display alone |
| `Vlm.BrokenTransportDrops` | analyzer/vlm_worker.py:238-242 | when the transport breaks the child is dropped and the model remembered |
| `Vlm.MissingChildIsRespawned` | analyzer/vlm_worker.py:228-232 | the next inference then launches a new child of that model and goes on with it |
| `Vlm.CrashedChildIsReplaced` | analyzer/vlm_worker.py:228-232 | so it does after a crash |
| `Vlm.ErrorStaysShown` | analyzer/main.py:134-140 | after a failed rollback the error stays displayed over any run in which only the model in use is asked for |
| `Vlm.AnotherModelClearsTheError` | analyzer/main.py:243-245 | asking for any other model that loads ends in "ready" with all parties agreeing |
| `Vlm.BothLoadsFail` | analyzer/main.py:229-240 | a switch and a rollback that both fail leave no child, the old holder and the new model on display |
| `Vlm.RecoveryGoesUnseen` | analyzer/vlm_worker.py:228-232 | from any iteration a state is reached in which the previous model answers again while the error is displayed |
| `Vlm.UnseenRecoveryIsReached` | analyzer/main.py:658-668 | and one from the start of the process |
| `Markers.Find` | analyzer/vlm_worker.py:79-80 | the first occurrence, or that there is none |
| `Markers.Truncate` | analyzer/vlm_worker.py:79-82 | cutting at each marker in turn yields the prefix before the earliest start of any marker in the original text |
| `Markers.WholeOrStraddling` | analyzer/vlm_worker.py:79-82 | an occurrence that is no longer whole after an earlier cut had another marker start strictly inside it, at the cut |
| `Markers.MarkersAreApart` | analyzer/vlm_worker.py:79 | none of the six markers can start strictly inside another |
| `Markers.CutAndStrip` | analyzer/vlm_worker.py:76-83 | the returned text is that prefix, stripped |
| `Text.StripTakesTheBlanks` | analyzer/vlm_worker.py:83 | stripping takes blanks off both ends, all of them and nothing else |
| `Markers.CutIgnoresOrder` | analyzer/vlm_worker.py:79-82 | the cut depends on which markers there are and not on their order |
| `Markers.NoMarkerLeft` | analyzer/vlm_worker.py:76-86 | for every generated text, no marker occurs in what is returned |
| `Encoder.SegmentRecorder.Start` | recorder/segments.py:69-84 | afterwards a live generation is told to run, at most one was added, and no older one was touched |
| `Encoder.SegmentRecorder.Stop` | recorder/segments.py:86-88 | afterwards the newest generation is told to stop if it lives, and nothing else has changed |
| `Encoder.OneEncoderAtATime` | recorder/segments.py:92-124 | over any calls and scheduling at most one generation is past its join, and only the newest can be live with a clear stop event |
| `Encoder.StopTellsAll` | recorder/segments.py:86-88 | a stop leaves every generation finished or told to stop, whatever came before |
| `Encoder.StopWindsDown` | recorder/segments.py:92-124 | after the last stop every worker step lowers a measure, some worker step is possible while it is positive, and at zero no generation is live |
| `Encoder.WorkersFinish` | recorder/segments.py:92-124 | the number of worker steps still to come is bounded by that measure |
| `Encoder.StartedWorkerEncodes` | recorder/segments.py:69-92 | after any start, left to themselves, the workers come to the newest generation encoding |
| `Rollover.SegmentDir.SelectForWindow` | recorder/rollover.py:62-93 | the segments selected are those that `Rollover.SelectedIff` and `Rollover.SelectionIsARun` speak of, of the parsable files in order |
| `Rollover.SelectedIff` | recorder/rollover.py:80-93 | a segment is selected if and only if it starts before the window's end and the window starts before its own end: the start of the next one, and for the last the smaller of now and a retention past its start |
| `Rollover.SegmentDir.Purge` | recorder/rollover.py:96-110 | leaves foreign, younger and unremovable files in order, and counts the rest |
| `Rollover.KeptIff` | recorder/rollover.py:96-110 | a file is still there exactly if its name does not parse, it is young enough, or it cannot be removed |
| `Rollover.SelectionIsARun` | recorder/rollover.py:76-93 | a selection is one contiguous run of the listing, in its order |
| `Rollover.WindowIsCovered` | recorder/rollover.py:76-93 | every recorded instant of the window lies in the span of a selected segment |
| `Rollover.PurgeSplits` | recorder/rollover.py:96-110 | a purge cuts the listing at the horizon, keeping of the older part only what cannot be removed |
| `Rollover.PurgeCommutesIff` | recorder/rollover.py:96-110 | with the horizon before the window's end, and whatever could not be unlinked, a purge leaves a selection alone if and only if every segment it did unlink had ended by the window's start |
| `Rollover.PurgeCommutesWithSelection` | recorder/settings.py:43 | with the derived retention, for all pre- and post-spans, regular segments and a purge up to one segment time past the window's end, selecting after the purge gives what selecting before it would |
| `Rollover.StretchedSegmentIsLost` | recorder/rollover.py:96-110 | an input with one overlong segment for which it does not |
| `Rollover.SelectedStayIff` | recorder/segments.py:141 | after any purges, every selected segment is on disk if and only if none of them came later than a retention after the start of any that can be unlinked; where the first can, that is after its start |
| `Rollover.OneSegmentTimeToRead` | recorder/settings.py:43 | with the derived retention and regular segments, purges up to one segment time past the window's end take none of the selected files, unlinkable or not |
| `Rollover.SlowReadLosesASegment` | recorder/finalize.py:188-220 | a regular selection of whole-second segments of which a purge two seconds after the window's end takes a file |
| `ClipStorage.ClipStore.DeletePair` | recorder/clip_storage.py:98-113 | the whole pair goes, its bytes are reported and become free, the counter goes down by one if the clip is big enough to count and it is not at zero |
| `ClipStorage.ClipStore.EnsureCapacity` | recorder/clip_storage.py:116-151 | exactly the shortest oldest-first prefix that reaches the target goes, free space grows by the reported bytes, and a not-ok result means no clip is left |
| `ClipStorage.PruneLengthIsUnique` | recorder/clip_storage.py:129-135 | there is only one such prefix |
| `ClipStorage.PrunedAreOldest` | recorder/clip_storage.py:89-95 | no survivor is older than a pruned clip |
| `ClipStorage.ClipStore.DeleteEvents` | recorder/events_db.py:136-147 | deletes exactly the rows naming one of the clips, and counts them |
| `ClipStorage.RowsLeft` | recorder/events_db.py:136-147 | the rows left after deleting by name are exactly those that name none of the clips |
| `ClipStorage.RowsAreJudgedSingly` | recorder/events_db.py:136-147 | each row stays or goes for itself, and those that stay keep order and number |
| `ClipStorage.RecordedNamesAreUnique` | recorder/finalize.py:143-150 | the name of a recorded clip determines its directory, so no two share a name |
| `ClipStorage.ClipStore.PruneWithHistory` | recorder/finalize.py:126-140 | with no foreign clip about, history loses exactly the rows naming pruned clips, otherwise those of the names gone from the listing; survivors are unchanged, none older than a pruned clip, and as many clips are gone as reported |
| `ClipStorage.HistoryLossIsExactIff` | recorder/finalize.py:128-132 | with foreign clips about, the rows lost are those naming a pruned clip if and only if no survivor has a pruned clip's name |
| `ClipCounter.StepKeepsBalance` | recorder/clip_storage.py:39-52 | every step of finalizers, deleters and restarts keeps counter and directory in balance |
| `ClipCounter.CounterLedger` | recorder/clip_storage.py:26-52 | in every interleaving, counter = listed clips - published uncounted + unlinked undiscounted + clamped discounts - finalizers that lost their clip |
| `ClipCounter.StepExactIff` | recorder/clip_storage.py:39-52 | a step keeps an exact counter exact if and only if it is neither a discount of a clip that counts with the counter at zero nor a measurement of one that is gone |
| `ClipCounter.RunExactIff` | recorder/finalize.py:252-288 | the counter is exact at every point of a run if and only if the run has no such step |
| `ClipCounter.PatientRunsAreExact` | recorder/finalize.py:252-288 | in particular it is if no clip is removed before it was counted |
| `ClipCounter.UndisturbedFinalize` | recorder/finalize.py:252-288 | a finalization nothing disturbs lists its clip and counts one if it is big enough |
| `ClipCounter.UndisturbedDelete` | recorder/clip_storage.py:98-113 | a deletion nothing disturbs takes its clip off the list, and one off the counter if it is big enough and the counter not at zero |
| `ClipCounter.SecondDeletionChangesNothing` | recorder/clip_storage.py:98-113 | a deletion that finds its clip gone changes nothing |
| `ClipCounter.DeletionBeforeCountOvercounts` | recorder/main.py:354-392 | a run in which the counter stays one too high |
| `ClipCounter.DeletionBeforeMeasureUndercounts` | recorder/finalize.py:252-253 | a run in which it stays one too low |
| `Cooldown.StepKeepsLocks` | recorder/state_store.py:37-46 | whoever merges the state file works on its current content, through crashes and failed writes |
| `Cooldown.StepKeepsAnchor` | recorder/finalize.py:76-81 | the anchor in memory is never behind the one on disk, and a cooldown ahead while an event is being saved |
| `Cooldown.StepKeepsSpacing` | recorder/finalize.py:76-82 | events whose acceptance is on disk stay a cooldown apart |
| `Cooldown.StartedEventsAreFarApart` | recorder/finalize.py:63-83 | over any run with restarts at any point, two events whose worker started are at least a cooldown apart |
| `Cooldown.UndisturbedEvent` | recorder/finalize.py:69-83 | an event nothing disturbs is started and saved if it is a cooldown past the anchor, and otherwise leaves no trace |
| `Cooldown.UnsavedEvent` | recorder/finalize.py:76-83 | an event whose save fails is not started, and holds off the next ones all the same |
| `Cooldown.UndisturbedFlip` | recorder/main.py:128-142 | a buffer start or stop puts its flag into the file and leaves the anchor there |
| `Cooldown.RestartTakesTheFilesAnchor` | recorder/finalize.py:60-63 | a restart takes the anchor from the file, or 0, and leaves the file alone |
| `Cooldown.EventsInAnInterval` | recorder/finalize.py:63-83 | an interval holds at most one more such event than cooldowns fit into it |
| `Cooldown.MergingLosesNothing` | recorder/state_store.py:37-46 | after any run the file's two members are the flag and the anchor saved last in it, read off its steps alone, or what the file held before |
| `Summary.Summarise` | recorder/main.py:474-525 | which queries are refused and why; otherwise buckets that tile the days asked for in steps of 3600 or 86400 seconds, each with exactly the row count and label counts of its interval, empty ones included |
| `Summary.TotalIs` | recorder/main.py:514 | a row count is the number of rows of the interval |
| `Summary.TallyIs` | recorder/main.py:515-523 | a label count is the number of places at which that text stands among the labels of those rows |
| `Summary.Starts` | recorder/main.py:500-505 | the bucket starts are exactly the local hours or days of the range, in order |
| `Summary.Filled` | recorder/main.py:507-523 | after all rows each bucket's figures are those of the rows in its interval |
| `Summary.Added` | recorder/main.py:517-523 | each text's count grows by its occurrences among the labels, other values are skipped |
| `Summary.BucketOf` | recorder/main.py:508-513 | rounding a time down to its local hour or day gives the one bucket whose interval contains it |
| `Summary.FiguresAddUp` | recorder/main.py:500-523 | totals and label counts over the buckets sum to those of the whole range |
| `Summary.TotalIsFetched` | recorder/main.py:495-498 | and the sum of totals is the number of rows fetched |
| `Profiles.RegisteredIsPromotedVerbatim` | streamer/camera.py:139-162 | a start promotes what was registered, unchanged |
| `Profiles.PasswordSurvivesRegistrations` | streamer/camera.py:139-148 | however often a client registers without a password, whatever else it changes, the one on file stays |
| `Profiles.FirstRegistration` | streamer/camera.py:298-340 | a first registration needs an address, a name and a password that are not blank, and says which is missing; port 554, path stream1 and no ONVIF port are the defaults |
| `Profiles.OverwritesWhatIsSent` | streamer/camera.py:298-340 | a later one replaces what is sent and keeps what is not, an empty password included; the ONVIF port can be taken back with a null |
| `Profiles.RefusedRegistration` | streamer/camera.py:139-148 | a registration of another source type leaves the slot alone |
| `Profiles.NullIsReadAsAWord` | streamer/camera.py:298-340 | a null for address or name is taken for the word None |
| `Camera.StepKeepsInv` | streamer/camera.py:151-246 | every step of starts, stops, restores, registrations, saves, child restarts and reboots keeps source, PTZ target, flag and applied slot in order |
| `Camera.EffectKeepsConnection` | streamer/camera.py:151-246 | each action inside the runtime lock leaves source, PTZ and slot as the next position of its handler promises |
| `Camera.ConnectionFollowsTheAppliedSlot` | streamer/camera.py:151-246 | whenever the runtime lock is free, lost replies and failed slot writes excepted: the source is detached or the applied profile's, PTZ off or aimed with it, and an inactive flag means PTZ off and, unless the last stop reported an error, a detached source |
| `Camera.StreamAndPtzAgree` | streamer/camera.py:372-381 | whenever the lock is free and no reply was lost, stream and PTZ are not on different cameras, failed slot writes included |
| `Camera.StopSucceeds` | streamer/camera.py:186-202 | the last step of a stop, if it reports success, leaves the stopped state; that a stop gets there is `Camera.UndisturbedStop` |
| `Camera.NothingReattachesAfterAStop` | streamer/camera.py:211-246 | from there, whatever restores are under way or begin later, nothing connects again before a start decides |
| `Camera.UndisturbedStart` | streamer/camera.py:151-183 | an undisturbed start pulls the source with the registered user, password, address, port and path, aims PTZ at the same address if there is an ONVIF port, and writes and loads profile, presets of that address and patrol setting |
| `Camera.RefusedStart` | streamer/camera.py:156-161 | a start without a valid registered profile changes nothing |
| `Camera.FailedPatchChangesNothing` | streamer/camera.py:171-172 | a start whose patch fails changes neither the connections nor the slot |
| `Camera.UndisturbedStop` | streamer/camera.py:186-202 | an undisturbed stop clears the flag, turns PTZ off, detaches the source and keeps profile, presets and patrol setting; with the patch failed the source stays and the error is reported |
| `Camera.FailedFlagChangesNothing` | streamer/camera.py:190-193 | a stop that cannot write the slot changes nothing |
| `Camera.UndisturbedRestore` | streamer/camera.py:229-241 | while streaming is active an undisturbed restore attempt reconnects source and PTZ to the applied profile |
| `Camera.FailedAttemptTriesAgain` | streamer/camera.py:229-243 | an attempt whose patch fails changes nothing and is there to try again |
| `Camera.RestoreGivesUp` | streamer/camera.py:220-237 | a restore that finds the flag clear ends, and frees the guard |
| `Camera.OneRestoreAtATime` | streamer/camera.py:205-219 | however often the child restarts, at most one restore is about, and the guard is up exactly then |
| `Camera.RestoreAfterARestart` | streamer/camera.py:211-246 | a restart of the child loses the source, a reboot PTZ as well; the slot stays, and a restore then reconnects what it says |
| `Camera.SavedSettingsSurviveAReboot` | streamer/camera.py:114-130 | patrol setting and presets saved are on disk, and after a reboot the presets are the ones in memory again |
| `Camera.AStartWritesWhatItRead` | streamer/camera.py:159-181 | whatever is registered or saved meanwhile, a start writes the profile it chose, the presets it found exactly if they belong to the same address, and the patrol setting it found |
| `Camera.LostReplyAgreesIff` | streamer/camera.py:372-381 | after a start or a restore attempt whose patch took effect with its reply lost, stream and PTZ are on one camera if and only if PTZ was on that of the profile being connected, or off |
| `Camera.LostStartAgreesIff` | streamer/camera.py:171-172 | for a start with PTZ following the slot: if and only if the registered profile has the applied one's address and credentials, or PTZ was off |
| `Camera.LostReplySplitsTheCameras` | streamer/camera.py:171-172 | for any two profiles of different addresses, a run from an unused streamer to a stream of the one with PTZ on the other |
| `Camera.FailedWriteFollowsIff` | streamer/camera.py:174-181 | a start that cannot write the slot leaves source and PTZ on one camera, following the slot if and only if streaming was active with the same connection |
| `Camera.SecondStartCannotWrite` | streamer/camera.py:174-181 | a run from an unused streamer in which they do not follow it |
| `Camera.LostRestoreSplitsTheCameras` | streamer/camera.py:229-241 | and that run continued by a restore whose reply is lost, to a stream of the one camera with PTZ on the other |
| `Camera.SavedPatrolSurvivesIff` | streamer/camera.py:163-181 | a patrol setting saved while a start is between its read and its write survives if and only if it is what the start writes |
| `Camera.SavedPatrolIsLost` | streamer/camera.py:163-181 | a run from an unused streamer in which one is lost |
| `Patrolling.Ptz.SetPatrol` | streamer/ptz.py:297-313 | with nothing in between: the flag is the one asked for, the interval too with five seconds the least, and turning off sends the camera to preset 1 if there is one; nothing else changes |
| `Patrolling.SetPatrolInSteps` | streamer/ptz.py:297-313 | the request's three steps, with the lock released between them, come to that when nothing happens in between |
| `Patrolling.Ptz.SetMoving` | streamer/ptz.py:77-80 | until when a manual move is held |
| `Patrolling.SavedPresetIsVisited` | streamer/ptz.py:247-261 | a preset just saved is visited in every round from the next tick on, at the position saved |
| `Patrolling.LoadedPresetIsVisited` | streamer/ptz.py:222-244 | so is every slot of presets just loaded |
| `Patrolling.StepKeepsInv` | streamer/ptz.py:333-366 | every step of the loop and of the handlers keeps the schedule, the hold and the cyclic order of turns |
| `Patrolling.TurnsAreSpaced` | streamer/ptz.py:351-362 | turns in a row are the interval apart that was read at the first, and at least five seconds, unless the schedule was reset |
| `Patrolling.TurnWaitsAsAsked` | streamer/ptz.py:338-362 | that interval is the one last asked for, in the steps up to the tick's wake, whatever is asked for meanwhile |
| `Patrolling.NoResetWhileLeftOn` | streamer/ptz.py:351-353 | while the patrol is left on, configured and with presets, the schedule is never reset |
| `Patrolling.HoldLastsTenSeconds` | streamer/ptz.py:72-80 | a move is held exactly from the last command of the run until ten seconds later, or a stop or disconnection before that |
| `Patrolling.TurnsArePolledFree` | streamer/ptz.py:357-366 | every turn of a run was polled with nothing held, and is issued during a hold if and only if a command in force came after its poll |
| `Patrolling.TurnDuringAHoldIff` | streamer/ptz.py:357-366 | those commands are the ones of the steps between poll and move, and no others |
| `Patrolling.PatrolOverridesAManualMove` | streamer/ptz.py:357-366 | a run in which the patrol moves the camera during a manual move |
| `Patrolling.NothingIsDecidedWhileHeld` | streamer/ptz.py:357-358 | however many ticks come while a move is held, none that begins its poll then takes a turn or costs a slot its turn |
| `Patrolling.UndisturbedTick` | streamer/ptz.py:343-366 | a tick takes a turn if and only if the patrol is on, connected, has presets, is due and nothing is held: to the next slot in cyclic order, which is displayed and visited, and the next turn is due an interval later; otherwise only a schedule or a display that has no use is cleared |
| `Patrolling.DisplayFollowsTheTurns` | streamer/ptz.py:347-366 | unless the patrol is turned off, the slot displayed is the one last moved to, or none |
| `Patrolling.OffStaysQuietIff` | streamer/ptz.py:343-366 | after any turning off, in every run until the next turning on there is no further turn, the camera stays and the slot stays or goes blank, if and only if no tick had already read the patrol as on and is between that and its move |
| `Patrolling.TurnAfterTurningOff` | streamer/ptz.py:357-366 | a run in which the camera goes to preset 2, and preset 2 is displayed, after the patrol was turned off |
| `Patrolling.SlotsAreThePresets` | streamer/ptz.py:346 | the slots visited are the saved ones, each once, ascending |
| `Patrolling.EachSlotOnce` | streamer/ptz.py:333-366 | in any run of the service, while the presets stay, any n turns in a row visit each of the n slots exactly once and at its position, however the patrol is toggled, held or disconnected meanwhile |

## Left out

- HTTP, SSE, MJPEG, HLS and WHEP transport, GStreamer, ffmpeg, ONVIF and NanoLLM: foreign calls, which succeed or fail as a step or parameter says.
- Hashing, signatures and random tokens: a token stands for its own hash and for the claims it carries, a new token is new.
- SQLite: each committed statement group is one atomic step; WAL, busy timeouts and disk errors are not modelled.
- The settings read from the environment: expiries, cooldown, limiter and intervals are modelled at their defaults, except that pre- and post-event spans, relay intervals and retention are arbitrary.
- Calendar formatting, strptime and daylight saving: times are numbers and the zone has a fixed offset.
- Summary.Summarise: stored labels are taken as a list or as undecodable text; the code that writes them stores only lists.
- LimiterRace.ConcurrentWindowBound: with a monotone clock and no successful login meanwhile, which would clear counter and lockout; how many failures pass when updates are lost is not bounded.
- Pipeline.LatestFlagWins: the state detail shown to clients, which a late stop can overwrite.
- Vlm.RecoveryGoesUnseen: the count of consecutive failed inferences is not kept; giving up is a step that may happen at any iteration.
- Encoder.OneEncoderAtATime: the retry loop inside one generation, its backoff and the segment count it reports.
- ClipStorage.ClipStore.EnsureCapacity: the listing is given as sorted by age, and nobody else deletes meanwhile; deletions by users are in `clip_counter.dfy`.
- Cooldown.EventsInAnInterval: concerns events whose worker was started; a worker that dies before its history row is written is not modelled.
- Markers.NoMarkerLeft: strip removes the six ASCII blanks; the further blanks of Unicode are not modelled.
- Profiles.RegisteredIsPromotedVerbatim: members of other JSON types than the expected ones, and unknown members a client adds, are not modelled.
- Camera.StepKeepsInv: a registration is one step; two at once could each keep the password the other replaces.
- Camera.SavedPatrolSurvivesIff: the same happens to presets, which a start also loads into memory; whose camera a preset belongs to is not tracked.
- Patrolling.TurnsAreSpaced: times are those the loop decides at; the ONVIF command follows when the thread gets to it.
- A WHEP opening cancelled between its steps ends its agent in the model; the ageing of registry rows is a step that may come at any time.
- Fairness of the scheduler: liveness is stated as quiescence and as decreasing measures.
- The web and mobile clients, gateway scripts, containers, hardware sampling, log masking, byte ranges, preset schedules and client storage: simple or plumbing.
