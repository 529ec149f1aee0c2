# Agent-Team: the Run protocol, verified

Agent-Team moves one role token through an append-only event journal. Several
processes (Workers, Supervisors, Runners, the Origin session, management
commands) share one Run directory; any of them may stop between two durable
writes. This project models that directory and the code that writes it, and
proves what holds in every state a Run can reach.

## How the model is built

- **One durable write is one step.** `Machine.Write` lists every atomic file
  replacement, the Runner's gate, the clock and the death of a process;
  `Machine.Permitted` lists what the program has established when it performs a
  write. A crash loses the rest of a locked block, never half a write, so the
  states between two writes are exactly the states a crash can leave.
- **One inductive invariant.** `Machine.Inv` is kept by every permitted write
  (`CommitProof`, `ClaimProof`, `SaveProof`, `ProcessProof`, collected in
  `Safety.WriteKeepsInv`), so it holds in every `Safety.Reachable` state. The
  difficulty is that a scan replays *old* events against *current* mutable
  Runtimes; `Stability` shows why old events stay acceptable.
- **The program on top.** `Directory.RunDirectory` is the Run directory as a
  class whose ghost `history` records the state after each write. The locked
  blocks of the source are methods over it (`TurnClaims`, `Delivery`, `Finalize`,
  `Launch`, `Processes`, `Worker`, `Staging`, `Origin`, `Management`). They
  require nothing beyond `Valid()`, so they start from any crash state, and they
  are verified to perform permitted writes only. Where no lock is held,
  `Interfere` lets every other process do anything permitted.
- **Oracles.** Process liveness, adapter probes, damaged files, captured
  workspace facts and the clock are nondeterministic, or answers a method is given
  (`Delivery.Checks`, `Origin.HostChecks`, `Finalize.Answers`) where its contract
  says what each answer leads to. Only "gone" is a stable
  liveness answer, and the clock never runs backward. Timestamps keep whole
  milliseconds of a microsecond clock.
- **Around the Run.** `Ownership` puts several Runs in one workspace. `Lines`,
  `Capture`, `Playback` and `Refinement` model the live recorder and the offline
  replay; `Trace` and `TraceFinalizer` the receipt-based trace finalization;
  `EvidenceMerge` the adapter evidence and every snapshot a Supervisor saves;
  `Framing` the length-prefixed hash inputs.

## What turned out not to hold

Five promises fail on inputs the program can reach. The model keeps the code as
it is; a lemma names the run, and another says exactly when the promise holds.

- A Supervisor reports the end, its own exit cannot be checked, and another
  event has already ended the Turn: "failed" is recorded whatever that event
  was (src/agent_team/worker.py:536-552). `Findings.DoubtfulCancelBreaksRun` is a
  run after which every scan refuses; `Theorems.DoubtfulEnding` says the scan
  still passes if and only if the event's own outcome is "failed".
- An Origin role hands off to itself, the process stops before the Runtime is
  saved, and the action is retried after the deadline
  (src/agent_team/origin.py:687-705): "failed" is recorded for a Handoff.
  `Findings.RetriedHandoffBreaksRun` is the run; `Theorems.OriginEnding` and
  `Theorems.GuardOutcomeRight` give the exact condition.
- A Turn claimed after the deadline and cancelled before it is closed stays open
  for good (src/agent_team/turns.py:1132-1140): `Findings.LateCancelStrandsTurn`,
  with the exact condition in `TurnClaims.FinalizeDeadlineBeforeClaim`.
- A Supervisor that cannot be identified once makes the Turn need recovery with
  the ending "unknown" (src/agent_team/worker.py:589-666). When it reports a
  different end later, that end can never be saved:
  `Findings.UnidentifiedIsNeverFinalized` is the run. `Theorems.ReportSaves` says
  that in every reachable state the final report is saved if and only if no
  other ending was recorded before.
- A candidate activation failure is recorded as an unavailable Session. If the
  process stops right behind that write, the next finalization takes the Session
  for one the Harness had lost (src/agent_team/worker.py:669-712): it refuses for
  good when the Harness had started, and otherwise blocks the Run instead of
  handing the finding back. `Findings.CandidateRetryDiffers` builds both runs;
  `Theorems.FinalizationRepeats` says that, with the same classification, the
  second finalization takes the same decision as the first if and only if there
  was no candidate failure, or both block the Turn as a failed start anyway.

Four smaller limits are stated in contracts: `cancel` is refused exactly while
an ended Turn is not acknowledged (`Theorems.CancelTaken`). A generation prepared
for a route that is *not* taken can differ from the next claim in exactly two
ways, both for a role routed to itself (`Routes.PreflightMatchesClaim`, with the
run in `Findings.UntakenRouteDiffers`); for a route that is taken it never does
(`Routes.TakenRouteMatches`). The Supervisor's last snapshot is refused exactly
when a refused report has left contradictory flags behind
(`EvidenceMerge.EverySavePasses`, `EvidenceMerge.RefusedReportLosesTheEnd`). A chunk
without bytes, which the stream reader accepts and the recorder never stores, can
be named as the first chunk of a record, and only such a chunk is named wrongly
(`Refinement.ReplayedRecordsPlaced`).

## Model

| member | source | states |
|---|---|---|
| Theorems.EveryReachableStoreScans | src/agent_team/journal.py:467-659 | in every reachable state, so after any crash between two writes, a full scan succeeds and reports the status and owner of the last event |
| Safety.AtMostOneHarness | src/agent_team/worker.py:936-1057 | over all interleavings and crashes, at most one Harness group that passed the authorization gate is alive |
| Processes.RunHarness | src/agent_team/runner.py:52-133 | when the gate opens, every other group that ever passed is gone, the Turn is the newest and Running, and its workspace is the one its sender froze |
| Theorems.RunsAreBounded | src/agent_team/turns.py:1004-1016 | business Turns never exceed max_turns, the journal never exceeds 2 max_turns + 1 events, and an unclaimed token can always be claimed |
| Theorems.FinalTurnKeepsToken | src/agent_team/journal.py:423-426 | whatever ends the final allowed Turn never transfers the token again |
| Theorems.EndingsFollowInputs | src/agent_team/journal.py:286-362 | an event that names a Turn directly follows that Turn's input and is its only ending; only an unclaimed Cancel names none |
| Endings.TerminalIsSuccessor | src/agent_team/journal.py:81-91 | the event found by searching the journal for a Turn is the successor of the Turn's input, or there is none |
| Theorems.ClaimsAreUnique | src/agent_team/turns.py:628-668 | at most one active Turn and one claim per event, contiguous numbers, the active business Turn numbered highest: the three integrity errors cannot occur |
| Theorems.LaunchesAreContinuous | src/agent_team/turns.py:1085-1114 | every Turn that was launched or begun on a Handoff has Before Facts equal to its sender's After Facts |
| Theorems.PolicyHolds | src/agent_team/turns.py:2086-2100 | over whole runs, role-selected Handoffs are edges of the frozen allow-list and formal actions of read-only roles left the workspace unchanged |
| Theorems.SetOnce | src/agent_team/turns.py:546-595 | between any two states of a run a nonce, a Runner, an authorization, After Facts and an ending, once set, never change |
| Theorems.SessionsOnlyMoveOn | src/agent_team/turns.py:825-965 | over any run a role's generation never decreases, and within a generation the ref never changes and an unavailable Session is never revived |
| Theorems.WriteMovesSessions | src/agent_team/turns.py:834-851 | no single write skips a generation |
| Theorems.LatestTurnCommits | src/agent_team/turns.py:832-857 | the latest Turn of a role is refused by commit_session only for a ref different from the one its generation has |
| Routes.PreflightMatchesClaim | src/agent_team/turns.py:801-822 | over every run from a reachable state, whatever happens before the target's next claim: that claim gets the generation the route prepared, unless a role routed to itself is Fresh and its generation was never recorded, or resumes Sessions and lost this one since; and then it never does |
| Routes.TakenRouteMatches | src/agent_team/turns.py:1056-1059 | the claim of the Handoff or Resume that ended the routing Turn always gets the prepared generation, also for a Fresh role that hands off to itself before its Session is committed |
| Findings.UntakenRouteDiffers | src/agent_team/turns.py:801-822 | a run in which a Fresh role prepares generation 2 for itself, is blocked and resumed, and is claimed with generation 1 |
| Replay.ReplayAccepts | src/agent_team/journal.py:553-584 | folding the validator over the journal accepts it if and only if every event is accepted at its own position |
| Stability.ClaimKeepsAccepted | src/agent_team/journal.py:553-584 | claiming a Turn leaves every committed event acceptable |
| Theorems.OldEventsStayAccepted | src/agent_team/journal.py:334-422 | every committed event is still acceptable against the current Runtimes: no later phase closes the recovery gate behind a Resume, no later evidence contradicts a system Handoff |
| SaveProof.SaveKeepsAccepted | src/agent_team/journal.py:382-422 | saving a Runtime, with its process evidence, leaves every committed event acceptable |
| Theorems.CountsAgree | src/agent_team/journal.py:708-741 | the count of business Turns at commit time equals the one a replay uses, and reaches max_turns exactly when the unended Turn's own number does |
| SaveProof.OneEnding | src/agent_team/journal.py:355-362 | two events that name the same Turn are the same event |
| Safety.WriteKeepsInv | src/agent_team/turns.py:518-597 | no permitted write leaves the invariant, whatever the state |
| Directory.RunDirectory.ScanJournal | src/agent_team/journal.py:467-659 | the scanning loops compute exactly the verdict the theorems are about |
| Directory.RunDirectory.CommitEvent | src/agent_team/journal.py:669-742 | an event becomes visible if and only if the validator accepts it, and then nothing else changes |
| Directory.RunDirectory.CommitTechnicalBlock | src/agent_team/turns.py:1449-1481 | an event that already ended the Turn is returned and nothing is written; otherwise the Block is committed exactly when valid |
| Directory.RunDirectory.SaveRuntime | src/agent_team/turns.py:518-597 | a Runtime is replaced if and only if it is valid and keeps what may not change, and a save that agrees with the journal keeps the directory valid |
| Directory.HistoryReachable | src/agent_team/util.py:208-260 | every state the methods leave behind, write by write, is a reachable state of the machine |
| Guards.StampKeepsSide | src/agent_team/util.py:34-36 | truncating a timestamp to milliseconds never moves it across the deadline |
| Theorems.BlockTakenInTime | src/agent_team/journal.py:439-462 | for the Turn no event has ended, the validator takes a technical Block if and only if its stamp and limit reason fit the deadline and the last number |
| Theorems.DecisionTaken | src/agent_team/journal.py:382-462 | a decision frozen by the guard is accepted for every kind of action |
| Delivery.GuardAction | src/agent_team/origin.py:582-685 | the guard ends the Turn, with a deadline, last-Turn or profile Block only for the matching cause, or freezes a timely decision; it is refused only when the deadline overtook a limit or profile Block |
| Delivery.Guard | src/agent_team/turns.py:1883-1999 | an event that already ended the Turn wins; otherwise as the action guard, with no unexpected result |
| Delivery.Deliver | src/agent_team/turns.py:1776-2236 | a staged completion leaves the Run completed, a staged block leaves it blocked by its agent, a staged or system Handoff leaves the chosen role with the token; a technical Block stands in for the action only for its own cause (deadline, last Turn, unprepared target, changed read-only workspace, nothing staged, unsure or misdirected evidence) and the action goes through only with no cause left; without an event the journal is unchanged |
| Staging.StageAction | src/agent_team/turns.py:1484-1651 | a first, lawful, timely action of the token owner is accepted; at most one is accepted per Turn, before the deadline, along allowed edges, and not for the last Turn's Handoff; a Block is committed instead only for the deadline, the last Turn or an unprepared target |
| TurnClaims.BusinessClaimAllowed | src/agent_team/turns.py:980-1083 | a claim of an unclaimed running tail with no active Turn is always permitted, also after the deadline |
| TurnClaims.CreateBusinessTurn | src/agent_team/turns.py:980-1114 | nothing is claimed exactly when the role does not own an unclaimed token or a Turn is active; the new Turn is the last, open, numbered, on the tail, and continues an available Session of a resuming role or counts its generation up by one; behind the deadline it is closed with a deadline Block; it is fit to launch exactly when its workspace is continuous |
| TurnClaims.FinalizeDeadlineBeforeClaim | src/agent_team/turns.py:1117-1159 | a Turn claimed too late is closed if and only if nothing but a deadline Block has ended it |
| TurnClaims.CreateManagementTurn | src/agent_team/turns.py:1162-1199 | the Block at the tail gets exactly one management Turn |
| Theorems.ChainRefusedOnlyFor | src/agent_team/worker.py:329-424 | the process artifacts of a reachable Turn are refused if and only if a Runner announced itself after being given up or evidence precedes authorization |
| Finalize.CommitRefusal | src/agent_team/turns.py:832-857 | with the generation its claim was given, commit_session can neither skip nor fall behind nor revive |
| Finalize.RecordSession | src/agent_team/worker.py:707-719 | recording the Session of the newest Turn of a role is refused if and only if the Session already says something else about that generation, and is a permitted write also when the Turn is already finalized |
| Finalize.FinalizeUnsupervised | src/agent_team/worker.py:467-519 | without a Supervisor an ended Turn is closed with the outcome of its event and an unended one is left alone |
| Finalize.FinalizeVanished | src/agent_team/worker.py:589-666 | the Turn ends finalized only if Supervisor and Runner group are gone, else it needs recovery; it is a failed start exactly if everything is gone and it never was authorized or lost its Session, otherwise a recovery; the Runtime keeps the last snapshot; refusal means the deadline passed or a started Harness had lost its Session |
| Finalize.FinalizeStopping | src/agent_team/worker.py:667-736 | without proof of quiescence the Turn ends as needing recovery, with the evidence of its snapshot; refusal means a lost or clashing Session or the deadline |
| Finalize.FinalizeReported | src/agent_team/worker.py:667-933 | evidence, Session and answers decide the ending case by case: a normal completion delivers the staged action, a recoverable output limit continues the Turn, a failed candidate goes back to its sender, and permission, recovery and failed start come exactly in their cases; refusal is confined to a lost Session of a started Harness, a Session clash and the deadline |
| Finalize.StartFailureExactly | src/agent_team/worker.py:667-933 | a reported Turn is blocked as a failed start if and only if it lost its Session, or a candidate failed that no other role had sent, or the Harness never started and was never authorized or could not be executed |
| Theorems.FinalizationRepeats | src/agent_team/worker.py:669-735 | after a crash behind the Session write the Session step changes nothing more, and with the same answers the decision is the same, if and only if no candidate failure was recorded or both decisions are the same failed start |
| Theorems.DoubtfulEnding | src/agent_team/worker.py:536-552 | the directory scans after this save if and only if the event that ended the Turn is itself a failure |
| Finalize.FinalizeExternal | src/agent_team/worker.py:456-933 | whatever the processes did, the directory scans afterwards and the Turn's Runtime matches its event, except in the doubtful case |
| Findings.DoubtfulCancelBreaksRun | src/agent_team/worker.py:536-552 | a reachable state in which this save makes every later scan fail |
| Launch.TakeNonce | src/agent_team/worker.py:1185-1203 | a launch nonce is taken if and only if the Turn is starting and has none |
| Launch.LaunchFailed | src/agent_team/worker.py:1145-1184 | a launch that failed before any process existed blocks the Turn for the given reason, unless another event has ended it, and records deadline or Cancel exactly for such an event |
| Launch.AuthorizeLaunch | src/agent_team/worker.py:936-1057 | authorization is given only in time, under an unchanged profile, to the single active, unended Turn whose Supervisor and Runner both answered, and then file, identities and phase agree; when it is withheld, a Block was committed for exactly its cause |
| Processes.AnnounceSupervisor | src/agent_team/supervisor.py:792-801 | a Supervisor announces itself if and only if the nonce is its own, nothing ended the Turn and no other Supervisor did |
| Processes.MarkSession | src/agent_team/turns.py:882-918 | a Session is marked unavailable for exactly the generation, Turn and reason that reported it, or nothing changes |
| Processes.RecordEvidence | src/agent_team/supervisor.py:534-577 | a report is merged and, if it tells something new, saved with the state it implies, after a lost Session is marked; the save itself never fails |
| Processes.PollForStop | src/agent_team/supervisor.py:1034-1069 | polling stops the group whenever the Turn has ended, the deadline has passed, permission is asked for or the Session is lost; the deadline and the request end the Turn with their own Block; "cancelled" and "deadline" are reported exactly for a Turn that a Cancel or a deadline Block has ended |
| Processes.Finish | src/agent_team/supervisor.py:1117-1180 | the last snapshot is saved if and only if this Supervisor lives and what it knows is not contradictory; a Harness that ended by itself is reported as normal exactly for exit code 0, as signalled for a negative one, else as output limit or crash as the adapter says; a stopped one as deadline or cancelled exactly for such a reason |
| Processes.Supervise | src/agent_team/supervisor.py:771-1180 | a Supervisor that may die at any moment among arbitrary other processes only performs permitted writes; one that lives and has refused no report leaves a last snapshot whose kind agrees with the event that ended the Turn |
| Worker.LaunchTurn | src/agent_team/worker.py:1061-1392 | from claim to end, with every other process interfering between the locks, the directory stays sound and the Turn is recorded as its event ended it; the Session never moves under a waiting claim, and a launch is refused for a lost Session only if the Turn was not claimed on a Resume |
| Theorems.ResumeStartsGenerations | src/agent_team/worker.py:1085-1103 | in every reachable state each later generation of a resuming role that was launched began with a Turn claimed on a Resume, and so was the newest Turn launched behind a lost Session |
| Worker.WorkerRound | src/agent_team/worker.py:1417-1534 | a round retires if and only if the role does not own a running token; an existing claim is finalized and never launched again; a new Turn on a workspace its sender did not leave ends in a recovery |
| Theorems.OriginEnding | src/agent_team/journal.py:630-650 | an Origin save leaves the directory scannable if and only if its outcome is the one the event announces |
| Theorems.GuardOutcomeRight | src/agent_team/origin.py:687-705 | the outcome recorded for a guard's event is right if and only if that event is a limit Block or a failure |
| Origin.Reconcile | src/agent_team/origin.py:133-156 | a claim whose Turn has ended is closed with the right outcome after any crash, and left untouched otherwise |
| Origin.ClaimOriginTurn | src/agent_team/origin.py:264-328 | an Origin Turn starts only on a continuous workspace; a discontinuous one is closed with a recovery without starting |
| Origin.OriginRound | src/agent_team/origin.py:159-334 | a Turn is handed to the host only while it is Running, Origin-held and continuous |
| Origin.OriginAction | src/agent_team/origin.py:543-823 | on a Turn no event has ended the directory always scans afterwards; the chosen action is the event, and leaves the Run as it says, unless a Block stands in for exactly its cause (limits, unprepared target, damaged or changed facts, changed read-only workspace); refusal means no right to act, an unreadable payload or the deadline; it can fail to scan only after an unacknowledged Handoff to the same role |
| Findings.RetriedHandoffBreaksRun | src/agent_team/origin.py:687-705 | a reachable state in which the retried action makes every later scan fail |
| Findings.LateCancelStrandsTurn | src/agent_team/turns.py:1132-1140 | a reachable state with a Turn claimed too late that a Cancel, not a deadline Block, has ended |
| Findings.UnidentifiedIsNeverFinalized | src/agent_team/worker.py:589-666 | a reachable state in which a Turn needs recovery, its Supervisor has reported the end, and no final report can be saved |
| Theorems.ReportSaves | src/agent_team/turns.py:570-583 | in every reachable state a Turn that needs recovery and whose Supervisor reported the end can be finalized if and only if no other ending was recorded before |
| Findings.CandidateRetryDiffers | src/agent_team/worker.py:669-712 | two reachable states on both sides of a crash, for a started and an unstarted Harness: uninterrupted the finding goes back to the sender, after the crash finalization refuses or blocks the Run |
| Management.CommitKickoff | src/agent_team/bootstrap.py:450-465 | the kickoff is committed if and only if the journal is empty, and gives the token to the initial role |
| Theorems.ResumeTaken | src/agent_team/journal.py:329-366 | a Resume whose limits and claim were checked is accepted by the validator |
| Management.OriginResume | src/agent_team/origin.py:835-959 | a resumable Block is resumed, the chosen role owns the token and the manager is closed, unless a limit was reached or the target could not be prepared |
| Theorems.CancelTaken | src/agent_team/journal.py:286-328 | a Cancel is accepted if and only if no ended Turn is still unacknowledged |
| Management.CancelRun | src/agent_team/management.py:70-125 | cancel commits exactly when no ended Turn is still unacknowledged, naming the open Turn; the Runtime of an Origin Turn records it, any other Runtime is untouched; only a Turn claimed too late keeps its Runtime open |
| Management.RecoverRun | src/agent_team/management.py:762-866 | recovery succeeds only if the directory scans; each Turn it reports is recorded with the event that ended it, and an unfinished Turn it does not report had a Supervisor not known dead, or none, no ending event and a live Worker or a process that announced itself |
| Ownership.OneHarnessPerWorkspace | src/agent_team/ownership.py:12-77 | over all histories of a workspace with any number of Runs at most one live Harness group exists, and it belongs to the owner |
| Ownership.OwnerWorksAlone | src/agent_team/state.py:415-447 | a running or blocked Run, or one with an unfinalized Turn, is the owner, and no other Run can acquire the workspace or be kicked off |
| Ownership.FinishedRefuses | src/agent_team/journal.py:286-368 | a Run that is not running or blocked takes no claim and no event but a first Kickoff |
| Ownership.Workspace.StartRun | src/agent_team/bootstrap.py:415-482 | no Run starts while another owns the workspace; a first start succeeds exactly when its kickoff is visible and reported, and one reported as failed gives ownership back if and only if the kickoff is not visible |
| Ownership.Workspace.ReleaseTerminalOwner | src/agent_team/ownership.py:12-77 | ownership is released if and only if the Run is finished, its Turns are all finalized and quiescent, their processes are gone and no other Run owns the workspace |
| Lines.FeedInParts | src/agent_team/supervisor.py:508-533 | cutting a stream fed in two parts yields the same records as cutting it at once |
| Capture.StoredIsPrefix | src/agent_team/supervisor.py:460-502 | the stored bytes are the first max_bytes of the interleaved input |
| Capture.StoredIsNumbered | src/agent_team/trace.py:248-273 | stored envelopes are numbered from 1 without a gap, also after truncation, so the stream reader accepts them |
| Capture.StreamRecorder.Record | src/agent_team/supervisor.py:460-533 | each chunk keeps accounting, stored stream, stderr log, buffers and parsed records as the input so far determines them |
| Capture.StreamRecorder.Close | src/agent_team/supervisor.py:427-445 | the capture summary is consistent with the input and passes the later checks against the stream |
| Capture.CutRecords | src/agent_team/supervisor.py:508-533 | the record loop returns the complete records, the rest and where the rest began |
| Playback.Replay | src/agent_team/trace.py:391-495 | a stream is read if and only if it is numbered from 1, and gives the sorted records of its chunks |
| Playback.SortKeeps | src/agent_team/trace.py:494-495 | the final sort keeps the order of records that were already ordered among themselves |
| Refinement.LiveIsReplayed | src/agent_team/trace.py:391-495 | the complete records of the replay are those parsed live: same bytes, raw references and order |
| Refinement.RecorderIsReplayed | src/agent_team/supervisor.py:508-533 | without truncation the recorder's own stream file replays to the records it handed to the adapter |
| Refinement.LiveRecordsPlaced | src/agent_team/supervisor.py:508-533 | the raw reference of a record handed on live is exact: counting the bytes of its source, its last byte lies in chunk last, and its first byte in chunk first if and only if that chunk is not empty; the recorder stores no empty one |
| Refinement.ReplayedRecordsPlaced | src/agent_team/trace.py:391-495 | the same for every replayed record; of an unterminated tail the first byte |
| Refinement.RecordsOfSource | src/agent_team/trace.py:447-473 | the record bytes of a source depend only on its concatenated input |
| Refinement.NothingIsLost | src/agent_team/trace.py:391-495 | the replayed records of a source concatenate to the bytes of that source |
| Refinement.StderrMatches | src/agent_team/trace.py:1153-1165 | the stderr log equals the stderr found by replaying the stream |
| Trace.SerializeTrace | src/agent_team/trace.py:570-586 | the stored events are the longest prefix within the limit, and stored plus omitted is all |
| Trace.EventsInOrder | src/agent_team/trace.py:498-535 | the trace has one event for each payload the adapter finds, in order, numbered from 1, with the time and raw reference of the record it was found in |
| Trace.RedactStream | src/agent_team/trace.py:589-622 | the archive holds one numbered, redacted record per record, with their stderr and redaction count |
| Trace.RecordsWellReferenced | src/agent_team/trace.py:272-285 | every record replayed from a readable stream, raw or archived, refers to a non-empty range of chunks, as the reader demands of an archive |
| Trace.ArchiveReadsBack | src/agent_team/trace.py:410-430 | the archive is readable and replays to the same number of records, the same raw references and the archived stderr |
| TraceFinalizer.FinalIsAccepted | src/agent_team/trace.py:830-951 | for every consistent capture and retention policy the finished directory passes the manifest validator |
| TraceFinalizer.RawOutputIsSafe | src/agent_team/trace.py:1188-1223 | raw output is replaced or deleted only when receipt and trace are durable |
| TraceFinalizer.RawIsOriginal | src/agent_team/trace.py:1278-1295 | a retry that still finds a raw stream recomputes the identical receipt |
| TraceFinalizer.TurnTrace.FinalizeTurnTrace | src/agent_team/trace.py:1246-1329 | after any number of crashes at any write a rerun never fails and, when it completes, leaves the files and manifest of an uninterrupted run |
| TraceFinalizer.CloseAndFinalize | src/agent_team/trace.py:990-1088 | whatever was captured, truncated or not, can be finalized into an accepted manifest |
| EvidenceMerge.EvidenceSnapshot.Merge | src/agent_team/adapters/base.py:258-318 | a report is merged if and only if it can follow what is known; nothing is ever taken back, and accepted reports keep the flags consistent |
| EvidenceMerge.EverySavePasses | src/agent_team/supervisor.py:201-383 | over any sequence of reports and stops, every snapshot passes the schema and the comparison with the one before; the last one does if and only if the known evidence is not contradictory, and always if every report was accepted |
| EvidenceMerge.RefusedReportLosesTheEnd | src/agent_team/adapters/base.py:290-309 | one refused report after which the last snapshot cannot be saved |
| Framing.LengthPrefix | src/agent_team/gitfacts.py:201-206 | the loop builds the frame of its fields |
| Framing.DecodeFrame | src/agent_team/gitfacts.py:201-206 | a decoder inverts the frame for fields below 2^64 bytes |
| Framing.FrameDecode | src/agent_team/gitfacts.py:201-206 | the decoder accepts nothing but frames |
| Framing.TreeDeterminesRecords | src/agent_team/gitfacts.py:406-410 | equal business-tree pre-images mean equal lists of path records |
| Framing.StateDeterminesParts | src/agent_team/gitfacts.py:424-428 | the state pre-image determines HEAD, status digest and tree digest |
| Framing.ModesNeverCoincide | src/agent_team/adapters/base.py:723-742 | headless and interactive profile frames never coincide |

## Left out

- Git, symlink and permission checks, fsync and the atomic-rename protocol: one file replacement is one indivisible step, a workspace snapshot is one abstract value.
- A failing Before Facts capture, which the program turns into a deliberately corrupt directory.
- Payload and prompt text, launch profiles, SHA-256 and JSON syntax: hashes are the values they stand for.
- The payload part of a staged action: whether an orphaned or damaged payload file exists is an oracle.
- Role snapshots, tmux, signals and locks: a locked block runs without interference, and a terminated group is one whose next probe answers "gone".
- Interactive mode: terminal evidence, Session candidates and prompt files.
- The classification rules of each Harness adapter: only the contracts that a recoverable output limit and a candidate activation failure must satisfy are kept.
- Damage repair, cleanup of corrupted processes, workspace unlock, status and transcript rendering, configuration parsing.
- Directory.RunDirectory.SaveRuntime: leaves out the trace manifest hash, launch profile fields and the updated_at timestamp of a Runtime.
- Finalize.FinalizeExternal: requires that no later Turn of the same role exists, because only one live Worker per role is admitted; anchoring the trace is `TraceFinalizer`, not part of this method.
- Worker.WorkerRound: the other processes may do anything permitted except claim for this Worker's role, or write the process files of a Turn whose Supervisor was never created.
- Processes.Supervise: while this Supervisor lives, no other process writes its snapshot; reading pipes and terminating the group are oracles, and what a Runner prints before it has announced itself is not parsed.
- Worker.LaunchTurn: launch specifications and the owner check are not part of it; ownership is `Ownership`.
- Management.RecoverRun: the preparation of adapter state and the restart of Workers are left out; the files they write are not among those modelled.
- Finalize.FinalizeReported: the adapter's candidate and output-limit classifiers, trace truncation and the exec status are answers it is given; only headless completion is decided here.
- TraceFinalizer.TurnTrace.FinalizeTurnTrace: requires a closed capture whose stored chunks are not empty and artifacts that nobody else changes, as the recorder leaves them.
- Ownership.Workspace.StartRun: the preflight of the workspace is an oracle; a repeated start of a Run that is already kicked off only reports it, and `unlock` is outside.
- The private run state of a Harness adapter (`prepare_run_state`, `finalize_run_state`) and the owner check at the head of each Run operation: ownership across Runs is the machine of `Ownership`, kept apart from the single-Run machine.
