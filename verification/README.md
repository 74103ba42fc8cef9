# A verified model of the sound server

The sound server arbitrates who may sound on a device, routes audio, and plays tones and
wave files. This project models five of its parts and proves what they promise:

| part | modules |
|---|---|
| the audio session manager | `AsmTypes`, `AsmModel` (what each operation does), `AsmServer` (the linked list itself), `AsmArbitration`, `AsmCache`, `AsmOutcome`, `AsmReach`, `AsmRuns`, `AsmAdmission`, `AsmLedger`, `AsmResume`, `AsmPersistence`, `AsmMonitors`, `AsmMonitorFlags`, `AsmAnswers`, `AsmChanges`, `AsmSessions`, `AsmMatrix`, `AsmExamples` |
| devices and routes | `DeviceModel`, `DeviceServer` (the masks, changed in place), `DeviceRoutes`, `DeviceActive`, `DeviceExact`, `DeviceClients` |
| the tone player | `ToneScore`, `TonePlayer`, `ToneTrace` |
| the key tone threads | `KeytoneProtocol`, `KeytoneThreads`, `KeytoneOutput`, `KeytonePlayback` |
| wave files | `WaveFormat`, `WaveParser`, `WaveRoundTrip`, `WavePlayer` |

`Counting` and `Arithmetic` hold facts about finite ranges and division.
`dafny verify dfyconfig.toml` checks everything.

How the parts are modelled:

- **Session manager.** `AsmServer.Server` is a class over heap nodes linked from a head to a
  self-linked tail, as in the source. Each method searches, rewrites or splices the list in
  place and is proved to do what a function of `AsmModel` says of the abstract state (list,
  two cached masks, session, log of effects); every message is handled under one lock, so
  messages are steps. The theorems are about those functions and
  about runs of messages. Replies of clients are an oracle indexed by the position in the
  log, whether a process exists is an oracle per message, and the policy matrix, the number
  of handles and the GCF switch are parameters, so the theorems hold for every matrix;
  `AsmMatrix` is the shipped one. Event masks are sets of events (each event has a bit of
  its own); resource masks are sets of bit positions, compared below position 16 because the
  source computes the conflict in an unsigned short. A decision the code never writes, and
  would send uninitialised, is `None`.
- **Devices.** The two masks are 16-bit vectors (no device uses a higher bit). A step gives
  the new masks and session and the notices that are sent. Calls of the audio system are
  taken to succeed.
- **Tones.** Any score whose times are positive or -1, whose loop blocks point back and do
  not overlap, and whose terminator jumps to the start.
- **Key tones.** A step is what a thread does between two uses of the lock. Waits end only
  by a signal or by the timeout, and the stop flag stays as it is.
- **Waves.** `long` is a 32-bit little-endian word, as the struct overlay assumes. Bytes
  behind the mapped file are an oracle. The parser in
  `server/plugin/keytone/mm_sound_plugin_run_key_tone.c:481-584` is the same text as the one
  cited below, so every statement about `WaveParser` holds for both.

Where the code does not do what its comments or names suggest, the model follows the code:

- An answer STOP does not mean that the requester is not listed, or that a listed one does
  not play on the list, and a registration that is not denied may be missing from the list
  (`AsmAdmission.ListedExactly`, `AsmAdmission.PlayingExactly`,
  `AsmExamples.DeniedYetListed`).
- A client whose entry is gone and that asks to play is told to play and gets no entry
  (`AsmExamples.ToldToPlayYetUnlisted`; exactly when: `AsmAdmission.AdmittedIsListed`).
- A sound that a call or an alarm stops is not always resumed when that ends: one that may
  mix with it and is stopped for a resource is not flagged, only its monitor is
  (`AsmExamples.StoppedForCallNotResumed`; exactly which are: `AsmResume.FlaggedExactly`,
  `AsmPersistence.ResumedExactly`). And a request that is denied has stopped or paused the
  sounds in front of the one that denies (`AsmReach.DeniedOutcome`).
- A call that starts from A2DP without an SCO link activates a device that is not there
  (`DeviceActive.CallWithoutSco`), a call whose headset was pulled leaves no output when
  another session follows (`DeviceActive.SilentAfterAbandonedCall`; exactly when:
  `DeviceActive.AlwaysSounding`, `DeviceActive.OutputHistory`), and that pull is not
  announced (`DeviceActive.ListenersAreCurrent`). A dock in use loses the output to the
  speaker when a call ends (`DeviceActive.CallRestoresOutput`).
- The pass over paused entries leaves the monitors that it tells dirty, and they are told
  nothing more until some later request has met a playing sound
  (`AsmMonitorFlags.MonitorCleanExactly`).
- The comments of the tone table give some scores a number of bursts through the
  terminator's loop count; that count is never used (`ToneScore.TerminatorCountIgnored`).
- A key tone handed over is played without its file when the next request has a bad header
  (`KeytoneProtocol.FileLost`; exactly when: `KeytoneProtocol.RequestIsTakenOver`).
- The chunk walk does not end on a chunk of size -8 (`WaveParser.EndlessFile`); it ends
  exactly on the files that `WaveParser.EndlessExactly` leaves.

## Model

| member | source | states |
|---|---|---|
| AsmOutcome.ResourceExclusion | server/mm_sound_mgr_asm.c:981-1386 | once a request to play is let in, a sound of another process that must stop or pause for it still plays or pauses with a resource the newcomer wants only if its own client answered IGNORE; over both passes |
| AsmOutcome.ArbitrationOutcome | server/mm_sound_mgr_asm.c:906-1386 | after a request that is not denied, the fate of every other entry: same process unchanged; one of another process that must yield was called back with PAUSE where the policy pauses and no resource clashes and with STOP otherwise, and with the cause the situation calls for, and is in the state and keeps the resources its reply gives it; a paused one is told STOP and stopped exactly when it holds a wanted resource and its policy yields |
| AsmOutcome.GcfMixes | server/mm_sound_mgr_asm.c:942-957 | with the GCF switch on nobody is denied, and a playing sound of another process is left alone unless it holds a wanted resource, for which it is told STOP |
| AsmOutcome.Pass2Told | server/mm_sound_mgr_asm.c:1296-1386 | every paused entry that the second pass stops was sent a STOP |
| AsmReach.DeniedOutcome | server/mm_sound_mgr_asm.c:906-1293 | after a request that is denied: a playing entry of another process is settled by policy and reply if no entry up to it denies, and every other entry, the requester's own apart, is as it was |
| AsmOutcome.RequesterIsListed | server/mm_sound_mgr_asm.c:906-1395 | entries keep identity and order although the list is prepended and rewritten during the traversal; only a registration adds an entry; a requester told to play, or that meets silence, is recorded: a new one is listed, and one that was listed takes the state and resources it asked for |
| AsmOutcome.DenialIsOrderIndependent | server/mm_sound_mgr_asm.c:942-979 | the answer is STOP if and only if GCF is off and some playing entry of another process has policy 1PLAY_2STOP, wherever it stands |
| AsmOutcome.AlwaysAnswers | server/mm_sound_mgr_asm.c:899-939 | the branch for "somebody plays" always meets another playing entry, so no answer goes out that was never written |
| AsmOutcome.Pass2Outcome | server/mm_sound_mgr_asm.c:1296-1386 | what the pass over paused entries does to each entry, found by traversal but changed by process and handle |
| AsmOutcome.FirstPassFate | server/mm_sound_mgr_asm.c:909-1293 | what the first pass does to one entry, with the list shifting under it |
| AsmArbitration.Pass1Moves | server/mm_sound_mgr_asm.c:909-1290 | the first pass adds at most one entry in front and moves every entry it met into a settled state |
| AsmArbitration.Pass1Answer | server/mm_sound_mgr_asm.c:942-979 | the first pass denies exactly if an entry not yet met denies, and answers exactly if one is met; which answer it is: `AsmAnswers.Pass1AnswersExactly` |
| AsmAnswers.Pass1AnswersExactly | server/mm_sound_mgr_asm.c:909-1290 | although the list grows and changes during the pass, its answer is STOP, or the one that the last playing entry of another owner calls for on the list as it was before: PLAY exactly if the request is to play and the policy arbitrates between the two, and else NONE |
| AsmAnswers.AnswerExactly | server/mm_sound_mgr_asm.c:890-1411 | the whole answer, from the list before the request: NONE and no handle to call when nobody plays, STOP if any playing entry denies, and otherwise PLAY or NONE by the last playing entry that is not the requester's own |
| AsmAnswers.EveryAnswer | server/mm_sound_mgr_asm.c:1510-1735 | on every run every message is answered as the list of living processes' entries calls for: REGISTER and SETSTATE to play as above, refused when full, acknowledged when playing already; GETSTATE with the state of that entry; GETMYSTATE with the most prominent one; nothing else is answered |
| AsmAnswers.StatusIsProminent | server/mm_sound_mgr_asm.c:717-758 | the state reported for a process is that of its last entry of the highest rank, and none if it has no entry |
| AsmAnswers.RankOrder | server/mm_sound_mgr_asm.c:717-735 | playing ranks above paused, paused by whomever above waiting and stopped, and these above the rest |
| AsmChanges.UnregisterExactly | server/mm_sound_mgr_asm.c:1551-1576 | UNREGISTER for every event: no entry with that handle is left, every other is there in its order and state, and the masks agree; list, log and session change in no other way unless a call or alarm ends, and then its session ends first |
| AsmChanges.StateChangeExactly | server/mm_sound_mgr_asm.c:1580-1654 | SETSTATE that is not arbitrated puts the one entry of that process and handle in the state and resources asked for, leaves every other, calls nobody back, and ends the radio's session exactly when a radio stops in it |
| AsmChanges.MonitorTellsActivity | server/mm_sound_mgr_asm.c:290-322 | after a change of state the first monitor of the process tells whether another of its sounds plays now; a change to IGNORE changes nothing |
| AsmChanges.QuietExactly | server/mm_sound_mgr_asm.c:1656-1735 | an emergent exit leaves exactly the entries of the other processes in their order; asking for a state changes nothing but the purge for a process's state, as does a registration that finds the list full |
| AsmSessions.SessionIsLastSet | server/mm_sound_mgr_asm.c:1471-1735 | on every run the session in force is the last one set |
| AsmSessions.ArbitratedSession | server/mm_sound_mgr_asm.c:1526-1627 | the session after an arbitrated message, from the list: the radio's ended if a radio was met and stopped before a denial, then that of a call started whatever the answer, and that of an alarm or radio that asks to play unless denied; which is set once, and for alarm and radio only if it is not on |
| AsmReach.Pass1Exact | server/mm_sound_mgr_asm.c:909-1290 | whatever the answer, the first pass settles exactly the playing entries of other processes that it meets before one that denies |
| AsmArbitration.InterruptOutcome | server/mm_sound_mgr_asm.c:983-1275 | interrupting one sound changes that sound alone, to the state its policy and its client's reply call for |
| AsmArbitration.CauseInWords | server/mm_sound_mgr_asm.c:981-1120 | each cause an interrupted client is told, exactly when: a resource conflict before everything else, then calls, headset and alarm, and another player only for a player that is paused for one |
| AsmAdmission.ListedExactly | server/mm_sound_mgr_asm.c:899-1395 | a registration is listed if and only if nobody plays or some playing sound admits it before any denies it |
| AsmAdmission.PlayingExactly | server/mm_sound_mgr_asm.c:899-1395 | the same for a listed sound that asks to play: it is listed as playing afterwards if and only if nobody played or some playing sound admits it before any denies it, whatever the answer |
| AsmAdmission.AdmittedIsListed | server/mm_sound_mgr_asm.c:777-797 | a requester told to play, or that meets silence, is listed as it asked if and only if it registers or was listed before |
| AsmAdmission.ChangeListsNobody | server/mm_sound_mgr_asm.c:777-797 | whatever the answer to a change of state, the requester is listed afterwards if and only if it was before |
| AsmExamples.ToldToPlayYetUnlisted | server/mm_sound_mgr_asm.c:1580-1635 | a run of the shipped server after which a process without an entry is told to play and still has none |
| AsmExamples.DeniedYetListed | server/mm_sound_mgr_asm.c:942-979 | a run of the shipped server after which a registration is answered STOP and yet listed as playing |
| AsmCache.CompareCached | server/mm_sound_mgr_asm.c:890-1411 | arbitration leaves both cached masks equal to the OR over the list |
| AsmCache.MaskMeaning | server/mm_sound_mgr_asm.c:549-578 | a mask has an event's bit if and only if an entry of that event is in that state |
| AsmRuns.RunInv | server/mm_sound_mgr_asm.c:1471-1735 | in every reachable state handles are distinct and in range and both masks are exact, across resume sweeps too |
| AsmRuns.ProcessInv | server/mm_sound_mgr_asm.c:1471-1735 | each message keeps that invariant however clients reply |
| AsmRuns.RegisterAllocates | server/mm_sound_mgr_asm.c:1526-1549 | on every run REGISTER is refused a handle if and only if the maximum number of live processes' entries is listed; otherwise it is told the least handle none of them holds |
| AsmRuns.FullExactly | server/mm_sound_mgr_asm.c:841-871 | the search for a free handle fails if and only if as many entries are listed as there are handles |
| AsmRuns.LeastFreeMeaning | server/mm_sound_mgr_asm.c:855-870 | the handle found is free and the least such |
| AsmRuns.EveryPlayIsAnswered | server/mm_sound_mgr_asm.c:1578-1600 | on every run a request to play gets an answer the server filled in |
| AsmRuns.ReadyOnEveryRun | server/mm_sound_mgr_asm.c:1526-1594 | every request that reaches the arbitration on any run meets the premises of the outcome theorems |
| AsmRuns.SurvivorsExact | server/mm_sound_mgr_asm.c:649-668 | the purge keeps exactly the entries of existing processes, in order |
| AsmRuns.WithoutPidExact | server/mm_sound_mgr_asm.c:673-714 | emergent exit removes all and only the entries of that process, the others in their order |
| AsmRuns.ResumeAllKeeps | server/mm_sound_mgr_asm.c:1413-1440 | a resume sweep changes no state, since RESUME never brings one back, and drops every flag |
| AsmLedger.ResumeMakesGood | server/mm_sound_mgr_asm.c:1413-1440 | on every run each RESUME is preceded by a STOP or PAUSE to the same entry on behalf of a call, rich call, video call or alarm, with no other RESUME or admission between |
| AsmLedger.LedgerRun | server/mm_sound_mgr_asm.c:1413-1440 | on every run flagged entries are owed a RESUME |
| AsmLedger.EndOfInterruption | server/mm_sound_mgr_asm.c:1551-1576 | when a call or alarm unregisters, each flagged entry left gets exactly one RESUME in list order and no flag remains |
| AsmResume.FlaggedExactly | server/mm_sound_mgr_asm.c:906-1293 | whatever the answer to a request, an entry is flagged afterwards if and only if it was before, or a call or alarm stopped or paused it by policy before any entry denied, or it is a monitor not yet told whose process was interrupted, under whatever policy |
| AsmExamples.StoppedForCallNotResumed | server/mm_sound_mgr_asm.c:1188-1274 | a run of the shipped server in which a call that may mix stops a player for a resource and the end of the call does not resume it |
| AsmPersistence.ProcessCarries | server/mm_sound_mgr_asm.c:1520-1727 | every message but the end of a call or alarm sends no RESUME and clears no flag of an entry it leaves, denied requests included |
| AsmPersistence.FlaggedOnRun | server/mm_sound_mgr_asm.c:1520-1727 | on every run, as long as no call or alarm has ended, an entry that is still listed and was not admitted anew is flagged if and only if it was or some message in between flagged it |
| AsmPersistence.SweepCounts | server/mm_sound_mgr_asm.c:1413-1440 | the sweep sends one RESUME to each flagged entry and none to any other |
| AsmPersistence.ResumedExactly | server/mm_sound_mgr_asm.c:906-1576 | on every run, an entry that is listed when the first call or alarm ends and was not admitted anew has by then got one RESUME if it was flagged or some message flagged it, and otherwise none |
| AsmMonitors.MonitorCalledOnce | server/mm_sound_mgr_asm.c:1016-1216 | in the first pass the monitor of a process is sent one STOP if it was clean and any of its sounds was interrupted, and otherwise none; the requester's own process is never interrupted |
| AsmMonitors.MonitorCalledOnceForPaused | server/mm_sound_mgr_asm.c:1346-1358 | the same for the pass over paused entries |
| AsmMonitorFlags.MonitorCalledExactly | server/mm_sound_mgr_asm.c:1016-1216 | in the first pass the monitor of a process is called once if it was clean and the pass meets a sound of its process that the policy interrupts, and otherwise not at all |
| AsmMonitorFlags.InterruptedMonitorIsFlagged | server/mm_sound_mgr_asm.c:1016-1029 | when the first pass of a call or alarm interrupts any sound of another process whose monitor is clean, that monitor ends flagged for resuming |
| AsmMonitorFlags.MonitorCleanExactly | server/mm_sound_mgr_asm.c:1290-1386 | after a request the monitor of another process can be told again if and only if it was clean or somebody played, and the pass over paused entries stopped none of its process; so that pass leaves monitors deaf |
| AsmMatrix.MatrixInWords | server/mm_sound_mgr_asm.c:89-112 | the policy of every pair of events by kind: who turns whom down, who pauses, who mixes, which pairs have no rule, and that all others stop the sound that plays |
| AsmMatrix.MatrixHoles | server/mm_sound_mgr_asm.c:89-112 | every pair of events has a policy except calls against calls of the same family |
| AsmMatrix.MatrixDeniers | server/mm_sound_mgr_asm.c:89-112 | only a call, rich call, video call or alarm denies, and never a notification or monitor |
| AsmMatrix.DenialMeansCall | server/mm_sound_mgr_asm.c:942-979 | on every run of the shipped server, a client whose message is answered STOP meets a playing call or alarm of another living process, and GCF is off |
| AsmServer.Server.Serve | server/mm_sound_mgr_asm.c:1800-1808 | the message loop over the linked list: after any run of messages the list, the masks, the session, the log and all answers are those of the model's run |
| AsmServer.Server.ProcessMessage | server/mm_sound_mgr_asm.c:1471-1735 | one message on the linked list has the state and answer of `AsmModel.Process` and keeps the invariant |
| AsmServer.Server.ComparePriorityMatrix | server/mm_sound_mgr_asm.c:890-1411 | both loops over the list that they prepend to and rewrite agree with `AsmModel.Compare` |
| AsmServer.Server.ComparePlaying | server/mm_sound_mgr_asm.c:905-1293 | the first loop, nodes added in front included, reaches the end of `AsmModel.Pass1` with clean monitors |
| AsmServer.Server.MeetSound | server/mm_sound_mgr_asm.c:911-1288 | one turn of the first loop on the list, the jump to the tail on a denial included, has state and answer of the model's step, whose answer `AsmAnswers.Pass1AnswersExactly` determines |
| AsmServer.Server.ComparePaused | server/mm_sound_mgr_asm.c:1299-1385 | the second loop has the result of `AsmModel.Pass2` |
| AsmServer.Server.StopPlaying | server/mm_sound_mgr_asm.c:981-1076 | the 1STOP_2PLAY case on the list |
| AsmServer.Server.PausePlaying | server/mm_sound_mgr_asm.c:1078-1186 | the 1PAUSE_2PLAY case on the list, for each of the client's replies |
| AsmServer.Server.MixPlaying | server/mm_sound_mgr_asm.c:1188-1274 | the MIX case on the list |
| AsmServer.Server.StopCleanMonitor | server/mm_sound_mgr_asm.c:1016-1029 | calls, marks and flags the first monitor of a process if it is clean |
| AsmServer.Server.ExitProcess | server/mm_sound_mgr_asm.c:673-714 | deleting by handle and restarting from the head terminates and removes exactly the entries of the process, given distinct handles |
| AsmServer.Server.PurgeList | server/mm_sound_mgr_asm.c:649-668 | the traversal with a lagging pointer, which may point at a removed node, is the filter by liveness |
| AsmServer.Server.UnregisterList | server/mm_sound_mgr_asm.c:600-625 | removes the first entry with that handle and recomputes the masks |
| AsmServer.Server.RegisterList | server/mm_sound_mgr_asm.c:581-598 | puts the new entry in front |
| AsmServer.Server.UpdatePhoneStatus | server/mm_sound_mgr_asm.c:549-578 | both masks become those of the list |
| AsmServer.Server.ChangeStateList | server/mm_sound_mgr_asm.c:777-797 | IGNORE changes nothing; else the first entry with that process and handle, its monitor and the masks |
| AsmServer.Server.UpdateMonitorActive | server/mm_sound_mgr_asm.c:290-322 | the first monitor of a process tells whether another of its sounds plays |
| AsmServer.Server.SetAllMonitorClean | server/mm_sound_mgr_asm.c:324-334 | cleans all monitors and nothing else |
| AsmServer.Server.GetEmptyHandle | server/mm_sound_mgr_asm.c:841-871 | marking used handles in an array and taking the first unmarked one gives the least free handle |
| AsmServer.Server.FindProcessStatus | server/mm_sound_mgr_asm.c:717-758 | the most prominent state of a process, later entries winning ties |
| AsmServer.Server.DoAllResumeCallback | server/mm_sound_mgr_asm.c:1413-1440 | the sweep in place has the result of `AsmModel.ResumeAll` |
| AsmServer.Server.OnUnregisterMsg | server/mm_sound_mgr_asm.c:1551-1576 | unregistering on the list, ending the session and the sweep, as the function of which `AsmChanges.UnregisterExactly` says what goes and what stays |
| AsmServer.Server.OnPlayMsg | server/mm_sound_mgr_asm.c:1580-1635 | a request to play: acknowledged if it plays already, else arbitrated, and its session started unless denied |
| DeviceRoutes.ReplayEqualsRecompute | server/mm_sound_mgr_device.c:320-385 | a client that took the full list once and applies every notice holds, after any events, what a full computation gives |
| DeviceRoutes.EveryClientIsCurrent | server/mm_sound_mgr_device.c:320-385 | the same on every run of the server, for a client that joins at any time |
| DeviceRoutes.PlugNoticeIsTheDifference | server/mm_sound_mgr_session.c:923-1060 | the notice of a plug or unplug is exactly the routes that differ before and after, in table order; no notice without a change |
| DeviceRoutes.CallNoticeIsTheDifference | server/mm_sound_mgr_session.c:300-345 | the notice of a call start or end is that difference if and only if the receiver was not in that state already |
| DeviceRoutes.PlugTouches | server/mm_sound_mgr_device.c:335-361 | the incremental test of a route agrees with comparing it before and after |
| DeviceClients.SubscriberIsCurrent | server/mm_sound_mgr_device.c:254-385 | whatever happens and whoever else subscribes or leaves, a client that subscribed and keeps its callback holds the current list |
| DeviceClients.ToldOnce | server/mm_sound_mgr_device.c:362-385 | a broadcast reaches every subscriber with a callback exactly once |
| DeviceClients.AddedMeaning | server/mm_sound_mgr_device.c:254-291 | subscribing keeps one entry per process, replaces the process's own and no other |
| DeviceClients.RemovedMeaning | server/mm_sound_mgr_device.c:293-318 | leaving removes the process's entry and no other |
| DeviceClients.Registry.Add | server/mm_sound_mgr_device.c:154-191 | the loop that updates in place or appends |
| DeviceClients.Registry.Remove | server/mm_sound_mgr_device.c:193-218 | the loop that removes the first entry of a process |
| DeviceClients.Registry.Broadcast | server/mm_sound_mgr_device.c:220-252 | one message per entry with a callback, in list order |
| DeviceActive.ActiveOutputIsAvailable | server/mm_sound_mgr_session.c:300-388 | on every run the output in use is plugged in after every event if and only if no call starts from A2DP without SCO or ends on SCO without A2DP |
| DeviceActive.AgreeingBluetooth | server/mm_sound_mgr_session.c:300-388 | so it is on every run where A2DP and SCO are there together or not at all at each call start and end |
| DeviceActive.AvailableExactly | server/mm_sound_mgr_session.c:300-388 | the same, exactly, for one event |
| DeviceActive.CallWithoutSco | server/mm_sound_mgr_session.c:321-325 | a call that activates an absent SCO link |
| DeviceActive.SingleStep | server/mm_sound_mgr_session.c:594-903 | after every event at most one output and at most one input are in use |
| DeviceActive.OneOutputOutsideCalls | server/mm_sound_mgr_session.c:1192-1231 | on every run in which calls end before other sessions begin, exactly one output is in use whenever no call is on |
| DeviceActive.OneOutputAlways | server/mm_sound_mgr_session.c:790-835 | on every run exactly one output is in use after every event, calls included, if and only if no headset in use is pulled during a call |
| DeviceActive.OutputHistory | server/mm_sound_mgr_session.c:300-1231 | on every run some output is in use after the first k events, calls included, unless a headset in use was pulled during a call and no event since has chosen an output |
| DeviceActive.AlwaysSounding | server/mm_sound_mgr_session.c:790-835 | on every run an output is in use outside calls after every event if and only if no call silenced in that way is left for another session |
| DeviceActive.SoundingExactly | server/mm_sound_mgr_session.c:790-835 | the same, exactly, for one event |
| DeviceActive.SilentAfterAbandonedCall | server/mm_sound_mgr_session.c:790-835 | a run after which no output is in use |
| DeviceActive.CallEndSounds | server/mm_sound_mgr_session.c:364-382 | the end of a call always leaves an output in use |
| DeviceActive.ListenersAreCurrent | server/mm_sound_mgr_session.c:790-835 | a listener knows the devices in use after every event if and only if no headset in use is pulled during a call |
| DeviceActive.BestTakesOver | server/mm_sound_mgr_session.c:594-617 | when the output in use goes, the best one left takes over (A2DP, dock, headset, speaker); only a headset that goes during a call is not replaced |
| DeviceActive.CallRestoresOutput | server/mm_sound_mgr_session.c:300-388 | a call that starts and ends gives the output back if and only if it was the speaker, the headset or A2DP |
| DeviceExact.RouteExactly | server/mm_sound_mgr_session.c:1120-1171 | a route request whose devices are all there puts exactly these in use and leaves the rest, one announcement of output and input if and only if one of them changed; any other changes nothing and tells nobody |
| DeviceExact.InUseExactly | server/mm_sound_mgr_session.c:300-1171 | which output and which input are in use after every event, thought of as one device each: who takes over, what a call moves and what its end gives back |
| DeviceExact.StartExactly | server/mm_sound_mgr_session.c:641-677 | the output and input in use after start-up |
| DeviceExact.AvailableExactly | server/mm_sound_mgr_session.c:923-1060 | which devices are there after every event: those that came, a headset with its microphone only if it has one, the receiver in calls |
| DeviceExact.StartAvailable | server/mm_sound_mgr_session.c:641-677 | which are there after start-up |
| DeviceServer.IsRouteValid | common/mm_sound_utils.c:50-63 | the index loop finds a route if and only if it is in the table |
| DeviceServer.SessionManager.ForeachAvailableRoute | server/mm_sound_mgr_device.c:86-117 | the loop collects exactly the available routes, in table order |
| DeviceServer.SessionManager.ChangedRoutes | server/mm_sound_mgr_device.c:334-361 | the loop collects exactly the routes the change touches |
| DeviceServer.SessionManager.constructor | server/mm_sound_mgr_session.c:641-677 | the start-up masks |
| DeviceServer.SessionManager.SetDeviceAvailable | server/mm_sound_mgr_session.c:923-1060 | masks and notices of a device that comes or goes |
| DeviceServer.SessionManager.HandleHeadsetOff | server/mm_sound_mgr_session.c:790-835 | a headset that goes, in and outside calls |
| DeviceServer.SessionManager.SetDeviceActive | server/mm_sound_mgr_session.c:1120-1171 | a route request on the masks: refused if a device is missing, and otherwise the masks and notices that `DeviceExact.RouteExactly` determines |
| DeviceServer.SessionManager.StartCall | server/mm_sound_mgr_session.c:306-330 | the start of a call |
| DeviceServer.SessionManager.EndCall | server/mm_sound_mgr_session.c:334-388 | the end of a call |
| DeviceServer.SessionManager.SetSession | server/mm_sound_mgr_session.c:1192-1231 | sessions, and the calls among them |
| DeviceServer.SessionManager.HandleAll | server/mm_sound_mgr_session.c:923-1231 | any sequence of events in place has the masks and notices of `DeviceModel.Run` |
| ToneTrace.ToneFollowsScore | server/plugin/tone/mm_sound_plugin_codec_tone.c:1030-1090 | in every millisecond one hears the segment that the unrolled score, repeated for ever, has there; and the milliseconds written add up to the accounted time |
| ToneTrace.EndlessIsLast | server/plugin/tone/mm_sound_plugin_codec_tone.c:945-962 | once a segment without a time of its own sounds nothing else is heard up to the end of the playing time |
| ToneScore.InterpreterUnrolls | server/plugin/tone/mm_sound_plugin_codec_tone.c:964-986 | the counter and back-jumps play each loop block once more than its loop count, and leave the counter at zero |
| ToneScore.Looped | server/plugin/tone/mm_sound_plugin_codec_tone.c:972-985 | one loop block, from any number of jumps on |
| ToneScore.TerminatorCountIgnored | server/plugin/tone/mm_sound_plugin_codec_tone.c:1040-1043 | the terminator's loop count has no effect |
| ToneScore.CallSignalUnrolled | server/plugin/tone/mm_sound_plugin_codec_tone.c:316-321 | one score of the table is well formed and plays two segments twenty times, then three more |
| TonePlayer.RunTone | server/plugin/tone/mm_sound_plugin_codec_tone.c:988-1103 | the writes are the slices of the repeated score, cut at the playing time; the total never exceeds it and equals it unless a stop was seen |
| TonePlayer.PlaySlices | server/plugin/tone/mm_sound_plugin_codec_tone.c:1047-1081 | one segment in slices of 100 ms and a rest, the last one cut |
| TonePlayer.WriteFits | server/plugin/tone/mm_sound_plugin_codec_tone.c:1058-1068 | every write is even, within the generated buffer, and all of it for an uncut slice |
| ToneTrace.WritesExactly | server/plugin/tone/mm_sound_plugin_codec_tone.c:874-1081 | how many bytes every write of a tone has, from the milliseconds of the score at 44100 samples of two bytes: 8820 for a segment of 100 ms or more or without end, else the even number next to 88.2 for each millisecond; for a last write that is cut, the even number next to the share that was played |
| ToneTrace.BytesForUnique | server/plugin/tone/mm_sound_plugin_codec_tone.c:874-880 | there is only one such number |
| ToneTrace.WritesFit | server/plugin/tone/mm_sound_plugin_codec_tone.c:1046-1080 | every write of a whole tone is even, for at most 100 ms, and within the buffer and 8820 bytes |
| ToneTrace.SlicesSound | server/plugin/tone/mm_sound_plugin_codec_tone.c:945-962 | cutting a segment into slices leaves nothing out |
| KeytoneProtocol.SafeRuns | server/plugin/keytone/mm_sound_plugin_run_key_tone.c:183-463 | in the write loop the state is STARTED or STOP and the device is open; the threads never both wait; a request handed over finds a renderer that does not sleep; the device is opened only when closed, written and closed only when open |
| KeytoneProtocol.InvStep | server/plugin/keytone/mm_sound_plugin_run_key_tone.c:183-463 | every critical section of either thread keeps the invariant, the race of timeout and request included |
| KeytoneProtocol.WaitIsAnswered | server/plugin/keytone/mm_sound_plugin_run_key_tone.c:407-445 | a waiting controller is signalled within three renderer steps; until then the renderer writes exactly what it was committed to: three periods if the rest was shorter than one, one if not, none if it had yet to look |
| KeytoneProtocol.RequestIsServed | server/plugin/keytone/mm_sound_plugin_run_key_tone.c:188-234 | a good request is handed over at once unless a tone plays, and wakes a sleeping renderer |
| KeytoneProtocol.RequestIsTakenOver | server/plugin/keytone/mm_sound_plugin_run_key_tone.c:376-402 | what was handed over is taken over within two renderer steps: file and size of the last request that got past opening its file; and without a file exactly when that request had a bad header |
| KeytoneProtocol.FileLost | server/plugin/keytone/mm_sound_plugin_run_key_tone.c:202-208 | a good request whose file is lost to the next one's bad header |
| KeytonePlayback.ToneIsWritten | server/plugin/keytone/mm_sound_plugin_run_key_tone.c:407-440 | a tone of n bytes that the renderer took over and no request interrupts: after two steps for every period and one more it is through, and the device was then written n / period times, and three times more if n is no multiple of the period |
| KeytonePlayback.StopCutsTone | server/plugin/keytone/mm_sound_plugin_run_key_tone.c:407-445 | a request after any number of steps stops it: the controller goes on within three steps, and the device was written as often as the tone has periods, fill and silence in the looks the renderer had begun, a beginning of the whole |
| KeytonePlayback.WritesBeginning | server/plugin/keytone/mm_sound_plugin_run_key_tone.c:407-445 | whatever requests come, as long as the renderer has not left the tone the writes are those of `KeytoneOutput.Rendered` for the looks it took |
| KeytonePlayback.RenderedCount | server/plugin/keytone/mm_sound_plugin_run_key_tone.c:416-436 | the tone in periods has n / period of them, and three more if there is a rest |
| KeytonePlayback.IdleDeviceIsClosed | server/plugin/keytone/mm_sound_plugin_run_key_tone.c:446-463 | the idle device is closed if and only if the wait times out and no good request comes before the renderer goes on, not even between timeout and lock; otherwise the request finds the device open |
| KeytonePlayback.ToneThenClosed | server/plugin/keytone/mm_sound_plugin_run_key_tone.c:407-463 | from the start of a tone to the timeout behind it, without a request: the device is written the whole tone and then closed |
| KeytonePlayback.FilesAreClosed | server/plugin/keytone/mm_sound_plugin_run_key_tone.c:438-439 | on every run the renderer holds a file only inside the write loop |
| KeytonePlayback.RequestIsRefused | server/plugin/keytone/mm_sound_plugin_run_key_tone.c:193-218 | a request that fails hands nothing over and disturbs nothing, and its file is closed if it was opened |
| KeytoneThreads.Keytone.RunSchedule | server/plugin/keytone/mm_sound_plugin_run_key_tone.c:184-463 | the critical sections of both threads in place, under any schedule: the shared record and what happened to the device end as `KeytoneProtocol.Run` says, so that the statements about runs hold of it; the renderer plays only with an open device, the threads never both wait, a request handed over finds a renderer that does not sleep, and the device is used only between open and close |
| KeytoneOutput.RenderedWhole | server/plugin/keytone/mm_sound_plugin_run_key_tone.c:407-436 | uninterrupted, the whole payload is written, filled up to a multiple of the period, and two silent periods follow if it had to be filled up |
| KeytoneOutput.RenderedPrefix | server/plugin/keytone/mm_sound_plugin_run_key_tone.c:407-436 | a stop cuts the tone after whole periods |
| KeytoneOutput.RenderTone | server/plugin/keytone/mm_sound_plugin_run_key_tone.c:407-436 | the write loop |
| WaveRoundTrip.ParseOfFile | server/plugin/wav/mm_sound_plugin_codec_wave.c:151-218 | parsing a file with any numbers in its format chunk: it is refused unless it is PCM and its sizes agree (bytes a second modulo 2^32); otherwise channels, rate and bits come back, and offset and size delimit exactly the payload; whatever unknown chunks stand before the format, between it and the data, and behind |
| WaveRoundTrip.CorrectedFile | server/plugin/wav/mm_sound_plugin_codec_wave.c:160-161 | a wrong RIFF size is corrected to the one a writer would have put |
| WaveRoundTrip.WalkOver | server/plugin/wav/mm_sound_plugin_codec_wave.c:173-184 | the walk skips chunks with other ids and stops at the one it looks for |
| WaveParser.ParseWave | server/plugin/wav/mm_sound_plugin_codec_wave.c:110-222 | the parser on the mapped bytes: result, and the bytes it corrects |
| WaveParser.FindChunk | server/plugin/wav/mm_sound_plugin_codec_wave.c:173-184 | the chunk walk with its unsigned wrap-around |
| WaveParser.EndlessExactly | server/plugin/wav/mm_sound_plugin_codec_wave.c:173-206 | the parser does not return if and only if the file is a WAVE file whose chunks lead round in a circle before the format chunk, or behind a supported one before the data chunk |
| WaveParser.ForwardFileEnds | server/plugin/wav/mm_sound_plugin_codec_wave.c:173-206 | the parser returns if each chunk it goes on from leads forward, whatever the bytes in between |
| WaveParser.OrdinaryFileEnds | server/plugin/wav/mm_sound_plugin_codec_wave.c:173-206 | in particular from every file below 2 GB in which those chunks claim ordinary sizes |
| WaveParser.EndlessFile | server/plugin/wav/mm_sound_plugin_codec_wave.c:173-182 | the parser does not return from a file whose first chunk is unknown and has size -8 |
| WaveFormat.ForwardEnds | server/plugin/wav/mm_sound_plugin_codec_wave.c:173-182 | a walk ends if each chunk it goes on from leads forward |
| WaveFormat.HangsExactly | server/plugin/wav/mm_sound_plugin_codec_wave.c:173-182 | a walk never ends if and only if it comes back to a chunk it has been at before it has a reason to stop; and as many turns as there are bytes tell, so the turn counter of the model gives up exactly on those walks |
| WavePlayer.RunWave | server/plugin/wav/mm_sound_plugin_codec_wave.c:429-452 | the two loops write the periods that `WavePlayer.Played` lists |
| WavePlayer.WaveIsRepeated | server/plugin/wav/mm_sound_plugin_codec_wave.c:429-452 | without a stop, n copies of the payload are written, each filled with zeros to a multiple of the period |
| WavePlayer.StopKeepsPeriods | server/plugin/wav/mm_sound_plugin_codec_wave.c:429-452 | with a stop at any look, also while repeating without end, a beginning of that stream in whole periods |

## Left out

- Message queues, FIFOs, polling, configuration keys, the audio system calls, logging and reference counting of files: client replies, liveness of processes and failures of the key tone requests are oracles instead.
- GET_SUBSESSION, SET_SUBSESSION and the optional privilege check of REGISTER: they change nothing that is modelled.
- `_asm_pause_process` inside the handlers of devices that go: it sends two messages to the session manager, which may end an FM radio session; the device model treats sessions as events of their own.
- The last error path of a callback: an undeliverable callback is the reply `Unexpected`.
- Failing calls of the audio system while routing: the handlers would return before announcing.
- The volume update at headset changes, the dock sounds and the sink names: they touch no mask and no session.
- More than 256 handles: the array of used handles in the list code has that size, so `AsmServer` asks for at most 256; `AsmModel` does not.
- `monitorActive` as an invariant: only a change of state refreshes it (`AsmChanges.MonitorTellsActivity`).
- Samples of a tone: only the number of bytes is modelled, as ms*882/10 rounded up to even; the source computes it in floating point. For a rest shorter than a slice of a long segment the whole buffer of 8820 bytes is written, so there bytes and accounted milliseconds are not proportional (`ToneTrace.WritesExactly`).
- Contents of the key tone's writes: the protocol's log counts them; `KeytoneOutput` says what is in them.
- 32-bit overflow of the accounted time of a tone that plays for more than 24 days.
- The source file of a request to the WAV player, its thread and the path it sets for the speaker.
- A mapped file is writable here; the correction of the RIFF size writes to the mapping.
- Padding of odd RIFF chunks: the parser expects none, so chunks are written without it.
- The end of the route list inside a message: a notice is a list of routes here, the message is a fixed array without an end mark.
- `mm_sound_thread_pool.c`, the codec slot table, the plugin scanner, the public wrappers and the test suite.
