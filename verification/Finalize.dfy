/** finalize_external_turn_locked: from the process evidence to the Turn's single ending. */
module Finalize {
  import opened Model
  import opened Options
  import opened Journal
  import opened Turns
  import opened Replay
  import opened Invariant
  import opened Sessions
  import opened Machine
  import opened Endings
  import opened Guards
  import opened FinalSaves
  import opened Directory
  import opened TurnClaims
  import opened Delivery
  import Scan
  import Stability
  import Safety

  // What a query for a process identity answers; only Gone is stable, and a
  // process that no longer exists never matches.
  datatype Liveness = Match | Gone | Unknown

  method Identity(d: RunDirectory, pid: Pid) returns (state: Liveness)
    requires d.Valid()
    modifies d
    ensures d.Valid() && old(d.history) <= d.history
    ensures d.State() == old(d.State()).(dead := d.dead) && old(d.dead) <= d.dead
    ensures state.Gone? ==> pid in d.dead
    ensures state.Match? ==> pid !in d.dead
  {
    hide Inv;
    var gone := d.Gone(pid);
    var readable: bool := *;
    state := if gone then Liveness.Gone else if readable && pid !in d.dead then Match else Unknown;
  }

  // ---- the process artifacts of one Turn

  predicate AnyEvidence(e: Evidence) { e.started || e.completed || e.permission || e.ref.Some? }

  // _validate_external_process_chain
  predicate ChainConsistent(turn: Turn)
    requires turn.sup.Some?
  {
    var sn := turn.sup.value;
    && (sn.runner.Some? ==> turn.runnerFile == sn.runner)
    && (sn.runner.None? && sn.state.SupFinished? ==> turn.runnerFile.None?)
    && (turn.rt.supervisor.Some? ==> turn.rt.supervisor == Some(sn.pid))
    && (turn.rt.runner.Some? ==> turn.runnerFile == turn.rt.runner)
    && (match turn.auth
        case Some(auth) =>
          && turn.runnerFile == Some(auth.runner) && sn.runner.Some? && auth.supervisor == sn.pid
          && turn.rt.supervisor == Some(sn.pid) && turn.rt.runner == turn.runnerFile
        case None =>
          !turn.rt.phase.Running? && !AnyEvidence(turn.rt.evidence) && !AnyEvidence(sn.evidence))
  }

  // A Runner announced itself after its Supervisor had given it up.
  predicate OrphanedRunner(turn: Turn) {
    turn.sup.Some? && turn.sup.value.state.SupFinished? && turn.sup.value.runner.None? && turn.runnerFile.Some?
  }

  predicate UnauthorizedEvidence(turn: Turn) {
    turn.sup.Some? && turn.auth.None? && (AnyEvidence(turn.rt.evidence) || AnyEvidence(turn.sup.value.evidence))
  }

  // The chain check refuses a reachable Turn for two reasons only.
  lemma ChainRefusal(s: Store, t: nat)
    requires Inv(s) && t < |s.turns| && s.turns[t].sup.Some?
    ensures ChainConsistent(s.turns[t]) <==> !OrphanedRunner(s.turns[t]) && !UnauthorizedEvidence(s.turns[t])
  {
    hide JournalInv, PolicyInv, SessionInv, CountInv;
    assert ProcOk(s.turns[t], t, s.dead, s.passed);
    ByWorkerIfSupervised(s, t);
  }

  lemma ByWorkerIfSupervised(s: Store, t: nat)
    requires Inv(s) && t < |s.turns| && s.turns[t].sup.Some?
    ensures s.turns[t].rt.executor.ByWorker? && s.turns[t].rt.nonce.Some?
  {
    hide JournalInv, PolicyInv, SessionInv, CountInv;
    assert ProcOk(s.turns[t], t, s.dead, s.passed);
  }

  // ---- the save that ends a Turn

  // The fields an ending may set.
  predicate EndingShape(turn: Turn, rt: Runtime) {
    var was := turn.rt;
    && rt == was.(phase := rt.phase, outcome := rt.outcome, terminal := rt.terminal, supervisor := rt.supervisor,
                   runner := rt.runner, evidence := rt.evidence, ending := rt.ending, after := rt.after)
    && Ended(rt.phase) && rt.outcome.Some? && rt.terminal.Some?
    && KeptOnce(was.supervisor, rt.supervisor) && KeptOnce(was.runner, rt.runner) && KeptOnce(was.after, rt.after)
    && (rt.runner.Some? ==> rt.supervisor.Some?)
    && (rt.evidence.completed ==> rt.evidence.started && !rt.evidence.permission)
    && rt.ending.quiescent.Some? && (rt.phase.Finalized? ==> rt.ending.quiescent == Some(true))
  }

  lemma FirstEndingSaves(s: Store, t: nat, rt: Runtime, e: Event)
    requires Inv(s) && t < |s.turns| && s.turns[t].rt.executor.ByWorker? && s.turns[t].rt.before.Some?
    requires TerminalFor(s.events, t) == Some(e) && rt.terminal == Some(e.id)
    requires !Ended(s.turns[t].rt.phase) && EndingShape(s.turns[t], rt)
    ensures ValidRuntime(s.team, rt) && SaveAllowed(s.turns[t].rt, rt)
  {
    hide Inv, TerminalFor;
    TurnNamed(s, t);
    EndingKind(s, t, e);
    NamedAt(s, e.id.n - 1);
  }

  // Ends the Turn in its Runtime with the event that ended it in the journal.
  method EndTurn(d: RunDirectory, t: nat, rt: Runtime, e: Event) returns (r: Result<Option<Event>>)
    requires d.Valid() && t < |d.turns| && d.turns[t].rt.executor.ByWorker? && d.turns[t].rt.before.Some?
    requires TerminalFor(d.events, t) == Some(e)
    requires rt.terminal == Some(e.id) && rt.outcome == Some(OutcomeOf(e.body))
    requires EndingShape(d.turns[t], rt) && FromSnapshot(d.turns[t], rt)
    requires rt.phase.Finalized? ==> GroupClosed(d.turns[t], d.dead)
    requires SettledBefore(d.State(), t, rt)
    modifies d
    ensures d.Valid() && old(d.history) <= d.history && d.events == old(d.events) && d.sessions == old(d.sessions)
    ensures d.State() == old(d.State()).(turns := d.turns)
    ensures r.Ok? ==> r == Ok(Some(e)) && Recorded(d.State(), t, e) && d.turns == old(d.turns)[t := old(d.turns)[t].(rt := rt)]
    ensures r.Err? ==> r.why.BadSave? && d.State() == old(d.State())
    ensures !Ended(old(d.turns)[t].rt.phase) ==> r.Ok?
    ensures r.Ok? && rt.phase.Finalized? ==> GroupClosed(d.turns[t], d.dead)
  {
    hide Inv, ValidRuntime, SaveAllowed, SaveAllowedNow, TerminalFor, FromSnapshot;
    if !Ended(d.turns[t].rt.phase) { FirstEndingSaves(d.State(), t, rt, e); }
    if ValidRuntime(d.team, rt) && SaveAllowed(d.turns[t].rt, rt) { EndingSaveAllowed(d.State(), t, rt, e); }
    var saved := d.SaveRuntime(t, rt);
    r := if saved then Ok(Some(e)) else Err(BadSave);
  }

  // _copy_supervisor_result
  function CopyResult(rt: Runtime, sn: Snapshot): Runtime {
    rt.(supervisor := Some(sn.pid), runner := sn.runner, evidence := sn.evidence,
        ending := Ending(sn.exitCode, sn.kind, Some(sn.quiescent)), phase := Exited)
  }

  // _terminal_outcome and the outcome table of the scan are the same table for
  // every event that can end an External Turn.
  function TerminalOutcome(e: Event): Outcome {
    if e.body.Handoff? || e.body.Complete? then Success
    else if e.body.Cancel? then Cancelled
    else if e.body.Block? && e.body.reason.Limit? then
      (if e.body.limit == Some(LimitReason.Deadline) then Cancelled else Stalled)
    else if e.body.Block? && e.body.reason.Agent? then Success
    else if e.body.Block? && e.body.reason.NoAction? then Stalled
    else Outcome.Failed
  }

  lemma OutcomesAgree(s: Store, t: nat, e: Event)
    requires Inv(s) && t < |s.turns| && s.turns[t].rt.executor.ByWorker? && TerminalFor(s.events, t) == Some(e)
    ensures TerminalOutcome(e) == OutcomeOf(e.body)
  {
    hide Inv, TerminalFor;
    EndingKind(s, t, e);
    WorkerRole(s, t);
  }

  // _finalize_existing_terminal
  function EndedWith(rt: Runtime, e: Event): Runtime {
    rt.(terminal := Some(e.id), outcome := Some(TerminalOutcome(e)),
        phase := if rt.ending.quiescent == Some(false) then RecoveryRequired else Finalized)
  }

  // ---- no Supervisor ever announced itself

  function KindFor(e: Event): Termination {
    if e.body.Cancel? then CancelledExit
    else if e.body.Block? && e.body.limit == Some(LimitReason.Deadline) then DeadlineExit
    else UnknownExit
  }

  lemma NoSnapshotNoIdentity(s: Store, t: nat)
    requires Inv(s) && t < |s.turns| && s.turns[t].sup.None?
    ensures s.turns[t].rt.supervisor.None? && Continues(None, s.turns[t].rt) && s.turns[t].auth.None?
    ensures s.turns[t].rt.runner.Some? ==> s.turns[t].runnerFile == s.turns[t].rt.runner
  {
    hide JournalInv, PolicyInv, SessionInv, CountInv;
    assert ProcOk(s.turns[t], t, s.dead, s.passed);
  }

  method FinalizeUnsupervised(d: RunDirectory, t: nat) returns (r: Result<Option<Event>>)
    requires d.Valid() && t < |d.turns| && d.turns[t].rt.executor.ByWorker? && d.turns[t].rt.before.Some?
    requires d.turns[t].sup.None?
    modifies d
    ensures d.Valid() && old(d.history) <= d.history && d.events == old(d.events) && d.sessions == old(d.sessions)
    ensures |d.turns| == |old(d.turns)|
    ensures r.Ok? && r.value.None? ==> d.State() == old(d.State()) && TerminalFor(d.events, t).None?
    ensures r.Ok? && r.value.Some? ==> Recorded(d.State(), t, r.value.value) && d.turns[t].rt.phase.Finalized?
                                       && GroupClosed(d.turns[t], d.dead)
    ensures r.Ok? && r.value.Some? ==>
              d.turns[t].rt.ending.kind == Some(if r.value.value.body.Cancel? then CancelledExit
                                                else if r.value.value.body.Block? && r.value.value.body.limit == Some(LimitReason.Deadline)
                                                then DeadlineExit else UnknownExit)
    ensures r.Err? ==> d.State() == old(d.State())
    ensures r.Err? && !Ended(d.turns[t].rt.phase) ==> r.why.BadProcessChain? && d.turns[t].runnerFile.Some?
  {
    hide Inv, TerminalFor, ValidRuntime;
    NoSnapshotNoIdentity(d.State(), t);
    var turn := d.turns[t];
    var terminal := TerminalFor(d.events, t);
    if turn.runnerFile.Some? || turn.auth.Some? || turn.rt.supervisor.Some? { return Err(BadProcessChain); }
    if terminal.None? { return Ok(None); }
    var e := terminal.value;
    OutcomesAgree(d.State(), t, e);
    var rt := turn.rt.(evidence := Evidence(false, false, false, turn.rt.evidence.ref),
                       ending := Ending(turn.rt.ending.exitCode, Some(KindFor(e)), Some(true)));
    r := EndTurn(d, t, EndedWith(rt, e), e);
  }

  // ---- sessions

  // _session_was_made_unavailable_by_turn
  predicate MadeUnavailable(s: Store, t: nat)
    requires t < |s.turns|
  {
    && s.turns[t].rt.role.Some? && s.turns[t].rt.role.value in s.sessions
    && var session := s.sessions[s.turns[t].rt.role.value];
    && session.ref.None? && Some(session.generation) == s.turns[t].rt.generation && session.updated == t
  }

  // With the generation its claim was given, the latest Turn of a role can
  // neither skip nor fall behind nor revive: only a changed ref is refused.
  lemma CommitRefusal(policy: SessionPolicy, current: Option<Session>, t: nat, generation: nat, ref: Ref)
    requires InStep(policy, current, t, generation)
    requires current.Some? && current.value.ref.None? && current.value.generation == generation ==> current.value.updated != t
    ensures CommitSession(current, t, generation, ref).Refused? <==>
              current.Some? && current.value.generation == generation && current.value.ref != Some(ref)
    ensures CommitSession(current, t, generation, ref).Refused? ==>
              CommitSession(current, t, generation, ref).why.RefChanged?
  {
  }

  lemma NewestInStep(s: Store, t: nat)
    requires Inv(s) && t < |s.turns| && s.turns[t].rt.executor.ByWorker? && Newest(s, t)
    requires s.turns[t].rt.role.Some? && s.turns[t].rt.generation.Some?
    ensures s.turns[t].rt.role.value in s.team.roles
    ensures InStep(s.team.roles[s.turns[t].rt.role.value].policy, Lookup(s.sessions, s.turns[t].rt.role.value),
                   t, s.turns[t].rt.generation.value)
  {
    WorkerRole(s, t);
    hide JournalInv, ProcInv, PolicyInv, CountInv, InStep;
    assert StepHeld(s, t);
  }

  // What recording the Session of a reported Turn writes.
  datatype SessionStep = Leaves | Writes(session: Session) | Conflicts

  function StepOf(w: SessionWrite): SessionStep {
    match w
    case Refused(_) => Conflicts
    case Written(session) => Writes(session)
  }

  function SessionStepOf(s: Store, t: nat, candidate: bool): SessionStep
    requires t < |s.turns| && s.turns[t].sup.Some?
    requires s.turns[t].rt.role.Some? && s.turns[t].rt.role.value in s.team.roles && s.turns[t].rt.generation.Some?
  {
    var role, generation := s.turns[t].rt.role.value, s.turns[t].rt.generation.value;
    var current, ref := Lookup(s.sessions, role), s.turns[t].sup.value.evidence.ref;
    if candidate then StepOf(RecordCandidateFailure(s.team.roles[role].policy, current, t, generation))
    else if ref.Some? && !MadeUnavailable(s, t) then StepOf(CommitSession(current, t, generation, ref.value))
    else Leaves
  }

  // The write is permitted; on a Turn that is already finalized it is the
  // Session that is there.
  lemma StepAllowed(s: Store, t: nat, candidate: bool)
    requires Inv(s) && t < |s.turns| && s.turns[t].rt.executor.ByWorker? && Newest(s, t)
    requires s.turns[t].sup.Some? && (s.turns[t].sup.value.state.SupStopping? || s.turns[t].sup.value.state.SupFinished?)
    requires s.turns[t].rt.role.Some? && s.turns[t].rt.role.value in s.team.roles && s.turns[t].rt.generation.Some?
    requires candidate ==> s.turns[t].sup.value.evidence.ref.Some?
    requires SessionStepOf(s, t, candidate).Writes?
    ensures Permitted(s, PutSession(t, SessionStepOf(s, t, candidate).session))
  {
    hide JournalInv, ProcInv, PolicyInv, CountInv, StepHeld, RouteHeld, Newest;
    assert SettledOnce(s, t);
    var role := s.turns[t].rt.role.value;
    if role in s.sessions { assert SessionOk(s.team, s.turns, role, s.sessions[role]); }
    hide SessionInv;
  }

  function AfterSession(s: Store, t: nat, candidate: bool): (after: Store)
    requires t < |s.turns| && s.turns[t].sup.Some?
    requires s.turns[t].rt.role.Some? && s.turns[t].rt.role.value in s.team.roles && s.turns[t].rt.generation.Some?
    ensures after == s.(sessions := after.sessions)
  {
    match SessionStepOf(s, t, candidate)
    case Writes(session) => s.(sessions := s.sessions[s.turns[t].rt.role.value := session])
    case _ => s
  }

  // Once the step is done, the Turn's Session is settled, and available unless
  // the Turn itself lost it.
  lemma StepSettles(s: Store, t: nat, candidate: bool)
    requires t < |s.turns| && s.turns[t].sup.Some?
    requires s.turns[t].rt.role.Some? && s.turns[t].rt.role.value in s.team.roles && s.turns[t].rt.generation.Some?
    requires !SessionStepOf(s, t, candidate).Conflicts?
    ensures
      var after := AfterSession(s, t, candidate);
      s.turns[t].sup.value.evidence.ref.Some? ==>
        && Settled(after, t)
        && (!candidate && !MadeUnavailable(s, t) ==> after.sessions[s.turns[t].rt.role.value].ref.Some?)
    ensures candidate ==> s.team.roles[s.turns[t].rt.role.value].policy.Fresh?
  {
  }

  // The role's Session already says something else about this generation.
  predicate SessionClash(s: Store, t: nat, candidate: bool)
    requires t < |s.turns| && s.turns[t].sup.Some?
    requires s.turns[t].rt.role.Some? && s.turns[t].rt.role.value in s.team.roles && s.turns[t].rt.generation.Some?
  {
    var role := s.turns[t].rt.role.value;
    var same := role in s.sessions && Some(s.sessions[role].generation) == s.turns[t].rt.generation;
    if candidate then
      || !s.team.roles[role].policy.Fresh?
      || (same && (s.sessions[role].ref.Some? || s.sessions[role].reason != Some(CANDIDATE_FAILED)))
    else
      && same && s.sessions[role].ref.Some? && s.turns[t].sup.value.evidence.ref.Some?
      && s.sessions[role].ref != s.turns[t].sup.value.evidence.ref
  }

  method RecordSession(d: RunDirectory, t: nat, candidate: bool) returns (recorded: bool)
    requires d.Valid() && t < |d.turns| && d.turns[t].rt.executor.ByWorker? && Newest(d.State(), t)
    requires d.turns[t].sup.Some? && (d.turns[t].sup.value.state.SupStopping? || d.turns[t].sup.value.state.SupFinished?)
    requires d.turns[t].rt.role.Some? && d.turns[t].rt.role.value in d.team.roles && d.turns[t].rt.generation.Some?
    requires candidate ==> d.turns[t].sup.value.evidence.ref.Some?
    modifies d
    ensures d.Valid() && old(d.history) <= d.history
    ensures recorded <==> !SessionStepOf(old(d.State()), t, candidate).Conflicts?
    ensures d.State() == AfterSession(old(d.State()), t, candidate)
    ensures recorded <==> !SessionClash(old(d.State()), t, candidate)
  {
    hide Inv, SessionStepOf, Permitted, Newest;
    var step := SessionStepOf(d.State(), t, candidate);
    StepRefusal(d.State(), t, candidate);
    if step.Writes? {
      StepAllowed(d.State(), t, candidate);
      d.Perform(PutSession(t, step.session));
    }
    return !step.Conflicts?;
  }

  // Only a ref that differs from the one the generation has is refused.
  lemma StepRefusal(s: Store, t: nat, candidate: bool)
    requires Inv(s) && t < |s.turns| && s.turns[t].rt.executor.ByWorker? && Newest(s, t) && s.turns[t].sup.Some?
    requires s.turns[t].rt.role.Some? && s.turns[t].rt.role.value in s.team.roles && s.turns[t].rt.generation.Some?
    ensures SessionStepOf(s, t, candidate).Conflicts? <==> SessionClash(s, t, candidate)
  {
    hide Inv, CommitSession, InStep, RecordCandidateFailure;
    NewestInStep(s, t);
    var current, ref := Lookup(s.sessions, s.turns[t].rt.role.value), s.turns[t].sup.value.evidence.ref;
    var policy := s.team.roles[s.turns[t].rt.role.value].policy;
    UnavailableBy(policy, current, t, s.turns[t].rt.generation.value);
    if !candidate && ref.Some? && !MadeUnavailable(s, t) {
      CommitRefusal(policy, current, t, s.turns[t].rt.generation.value, ref.value);
    }
    if candidate { FailureRefusal(policy, current, t, s.turns[t].rt.generation.value); }
  }

  // A candidate failure is refused for a role that resumes Sessions, and for a
  // generation that another outcome was recorded for.
  lemma FailureRefusal(policy: SessionPolicy, current: Option<Session>, t: nat, generation: nat)
    requires InStep(policy, current, t, generation)
    ensures RecordCandidateFailure(policy, current, t, generation).Refused? <==>
              || !policy.Fresh?
              || (current.Some? && current.value.generation == generation
                  && (current.value.ref.Some? || current.value.reason != Some(CANDIDATE_FAILED)))
  {
  }

  lemma UnavailableBy(policy: SessionPolicy, current: Option<Session>, t: nat, generation: nat)
    requires InStep(policy, current, t, generation)
    ensures current.Some? && current.value.ref.None? && current.value.generation == generation ==> current.value.updated == t
  {
  }

  // ---- the Supervisor vanished before a final snapshot

  // Is the Runner's process group provably gone, if need be after terminating it?
  method GroupQuiescent(d: RunDirectory, runner: Option<Pid>) returns (quiescent: bool)
    requires d.Valid()
    modifies d
    ensures d.Valid() && old(d.history) <= d.history
    ensures d.State() == old(d.State()).(dead := d.dead) && old(d.dead) <= d.dead
    ensures quiescent ==> runner.None? || runner.value in d.dead
  {
    hide Inv;
    if runner.None? { return true; }
    quiescent := d.Gone(runner.value);
    if !quiescent {
      var identity := Identity(d, runner.value);
      if identity.Match? { quiescent := d.Gone(runner.value); }
    }
  }

  function VanishedResult(turn: Turn, sn: Snapshot, stopped: bool): Runtime {
    turn.rt.(supervisor := Some(sn.pid), runner := turn.runnerFile, evidence := sn.evidence,
             ending := Ending(sn.exitCode, Some(if sn.kind.Some? then sn.kind.value else UnknownExit), Some(stopped)))
  }

  lemma SnapshotValid(s: Store, t: nat)
    requires Inv(s) && t < |s.turns| && s.turns[t].sup.Some?
    ensures ValidSnapshot(s.turns[t].sup.value)
    ensures s.turns[t].rt.supervisor.Some? ==> s.turns[t].rt.supervisor == Some(s.turns[t].sup.value.pid)
    ensures s.turns[t].rt.runner.Some? ==> s.turns[t].runnerFile == s.turns[t].rt.runner
    ensures s.turns[t].sup.value.runner.Some? ==> s.turns[t].runnerFile == s.turns[t].sup.value.runner
    ensures s.turns[t].sup.value.state.SupFinished? && s.turns[t].sup.value.runner.Some? ==>
              s.turns[t].sup.value.runner.value in s.dead
  {
    hide JournalInv, PolicyInv, SessionInv, CountInv;
    assert ProcOk(s.turns[t], t, s.dead, s.passed);
  }

  // What an ending by this call means, whatever branch took it.
  ghost predicate EndedNow(s: Store, t: nat, r: Result<Option<Event>>)
    requires t < |s.turns|
  {
    r.Ok? && r.value.Some? ==>
      && Recorded(s, t, r.value.value)
      && (s.turns[t].rt.phase.Finalized? || s.turns[t].rt.phase.RecoveryRequired?)
      && (s.turns[t].rt.phase.Finalized? ==> GroupClosed(s.turns[t], s.dead))
  }

  lemma VanishedShape(turn: Turn, stopped: bool, dead: set<Pid>, phase: Phase, outcome: Outcome, terminal: EventId)
    requires turn.sup.Some? && ValidSnapshot(turn.sup.value)
    requires !turn.sup.value.state.SupFinished? && !turn.sup.value.state.SupStopping?
    requires turn.rt.supervisor.Some? ==> turn.rt.supervisor == Some(turn.sup.value.pid)
    requires turn.rt.runner.Some? ==> turn.runnerFile == turn.rt.runner
    requires stopped ==> turn.sup.value.pid in dead && (turn.runnerFile.None? || turn.runnerFile.value in dead)
    requires phase == if stopped then Finalized else RecoveryRequired
    ensures
      var rt := VanishedResult(turn, turn.sup.value, stopped).(phase := phase, outcome := Some(outcome), terminal := Some(terminal));
      EndingShape(turn, rt) && FromSnapshot(turn, rt) && (rt.phase.Finalized? ==> GroupClosed(turn, dead))
  {
  }

  // The Runtime keeps the last snapshot of a Supervisor that reported no end.
  predicate LastSeen(turn: Turn, rt: Runtime)
    requires turn.sup.Some?
  {
    var sn := turn.sup.value;
    && rt.supervisor == Some(sn.pid) && rt.runner == turn.runnerFile && rt.evidence == sn.evidence
    && rt.ending.exitCode == sn.exitCode && (rt.ending.quiescent == Some(true) <==> rt.phase.Finalized?)
    && (sn.kind.Some? ==> rt.ending.kind == sn.kind) && (sn.kind.None? ==> rt.ending.kind == Some(UnknownExit))
  }

  method FinalizeVanished(d: RunDirectory, t: nat, supervisorGone: bool) returns (r: Result<Option<Event>>)
    requires d.Valid() && t < |d.turns| && d.turns[t].rt.executor.ByWorker? && d.turns[t].rt.before.Some?
    requires d.turns[t].sup.Some? && ChainConsistent(d.turns[t])
    requires !d.turns[t].sup.value.state.SupFinished? && !d.turns[t].sup.value.state.SupStopping?
    requires supervisorGone ==> d.turns[t].sup.value.pid in d.dead
    modifies d
    ensures d.Valid() && old(d.history) <= d.history && d.sessions == old(d.sessions) && |d.turns| == |old(d.turns)|
    ensures EndedNow(d.State(), t, r) && (r.Ok? ==> r.value.Some?)
    ensures r.Ok? && TerminalFor(old(d.events), t).None? ==>
              && r.value.value.body == Block(
                   if d.turns[t].rt.phase.Finalized? && (old(d.turns)[t].auth.None? || MadeUnavailable(old(d.State()), t))
                   then StartFailure else Recovery, None)
    ensures r.Ok? ==> LastSeen(old(d.turns)[t], d.turns[t].rt)
    ensures r.Err? ==> d.events == old(d.events) || r.why.BadSave?
    ensures r.Err? && !Ended(old(d.turns)[t].rt.phase) ==>
              || (r.why.BadSession? && MadeUnavailable(d.State(), t))
              || (TerminalFor(d.events, t).None? && |d.events| > 0 && Stamp(d.clock) >= DeadlineAt(d.State()))
  {
    hide Inv, TerminalFor, ValidRuntime, BlockTimely, TerminalOutcome, MadeUnavailable, ChainConsistent, EndingShape, FromSnapshot, GroupClosed;
    WorkerRole(d.State(), t);
    SnapshotValid(d.State(), t);
    ghost var s0 := d.State();
    var turn := d.turns[t];
    var sn := turn.sup.value;
    var quiescent := GroupQuiescent(d, turn.runnerFile);
    var stopped := supervisorGone && quiescent;
    var unavailable := MadeUnavailable(d.State(), t);
    SameUnavailable(s0, d.State(), t);
    if unavailable && sn.evidence.started { return Err(BadSession); }
    var rt := VanishedResult(turn, sn, stopped);
    var terminal := TerminalFor(d.events, t);
    if terminal.Some? {
      OutcomesAgree(d.State(), t, terminal.value);
      VanishedShape(turn, stopped, d.dead, if stopped then Finalized else RecoveryRequired,
                    TerminalOutcome(terminal.value), terminal.value.id);
      r := EndTurn(d, t, EndedWith(rt, terminal.value), terminal.value);
      return;
    }
    r := EndVanished(d, t, stopped, unavailable);
  }

  lemma SameUnavailable(a: Store, b: Store, t: nat)
    requires t < |a.turns| && b == a.(dead := b.dead)
    ensures MadeUnavailable(a, t) <==> MadeUnavailable(b, t)
  {
  }

  // No event has ended the Turn: a failed start if it never was authorized or
  // its Session was lost, and everything is gone; otherwise a recovery.
  method EndVanished(d: RunDirectory, t: nat, stopped: bool, unavailable: bool) returns (r: Result<Option<Event>>)
    requires d.Valid() && t < |d.turns| && d.turns[t].rt.executor.ByWorker? && d.turns[t].rt.before.Some?
    requires d.turns[t].sup.Some? && TerminalFor(d.events, t).None?
    requires !d.turns[t].sup.value.state.SupFinished? && !d.turns[t].sup.value.state.SupStopping?
    requires stopped ==> d.turns[t].sup.value.pid in d.dead && (d.turns[t].runnerFile.None? || d.turns[t].runnerFile.value in d.dead)
    modifies d
    ensures d.Valid() && old(d.history) <= d.history && d.sessions == old(d.sessions) && |d.turns| == |old(d.turns)|
    ensures EndedNow(d.State(), t, r) && (r.Ok? ==> LastSeen(old(d.turns)[t], d.turns[t].rt))
    ensures r.Ok? ==>
              && r.value.Some? && (d.turns[t].rt.phase.Finalized? <==> stopped)
              && r.value.value.body == Block(if stopped && (old(d.turns)[t].auth.None? || unavailable) then StartFailure else Recovery, None)
    ensures r.Err? ==> d.events == old(d.events) || r.why.BadSave?
    ensures r.Err? && !Ended(old(d.turns)[t].rt.phase) ==>
              TerminalFor(d.events, t).None? && |d.events| > 0 && Stamp(d.clock) >= DeadlineAt(d.State())
  {
    hide Inv, TerminalFor, ValidRuntime, BlockTimely, EndingShape, FromSnapshot, GroupClosed;
    WorkerRole(d.State(), t);
    SnapshotValid(d.State(), t);
    var turn := d.turns[t];
    var reason := if stopped && (turn.auth.None? || unavailable) then StartFailure else Recovery;
    var e := BlockNow(d, t, reason, None);
    TimelyBeforeDeadline(d.team, d.turns[t].rt, reason, Stamp(d.clock), DeadlineAt(d.State()));
    if e.Err? { return Err(e.why); }
    VanishedShape(turn, stopped, d.dead, if stopped then Finalized else RecoveryRequired, Outcome.Failed, e.value.id);
    r := EndTurn(d, t, VanishedResult(turn, turn.sup.value, stopped).(
                         phase := if stopped then Finalized else RecoveryRequired, outcome := Some(Outcome.Failed),
                         terminal := Some(e.value.id)), e.value);
  }

  // ---- the Supervisor reported, but the group is not proven quiescent

  method FinalizeStopping(d: RunDirectory, t: nat) returns (r: Result<Option<Event>>)
    requires d.Valid() && t < |d.turns| && d.turns[t].rt.executor.ByWorker? && d.turns[t].rt.before.Some?
    requires d.turns[t].sup.Some? && d.turns[t].sup.value.state.SupStopping? && Newest(d.State(), t)
    requires ChainConsistent(d.turns[t])
    modifies d
    ensures d.Valid() && old(d.history) <= d.history && |d.turns| == |old(d.turns)|
    ensures EndedNow(d.State(), t, r)
    ensures r.Ok? ==> r.value.Some? && d.turns[t].rt.phase.RecoveryRequired?
    ensures r.Ok? ==>
              var sn := old(d.turns)[t].sup.value;
              && d.turns[t].rt.evidence == sn.evidence && d.turns[t].rt.ending == Ending(sn.exitCode, sn.kind, Some(sn.quiescent))
    ensures r.Ok? && TerminalFor(old(d.events), t).None? ==> r.value.value.body == Block(Recovery, None)
    ensures old(d.turns)[t].rt.role.Some? && old(d.turns)[t].rt.role.value in d.team.roles && old(d.turns)[t].rt.generation.Some?
    ensures r.Err? && !Ended(old(d.turns)[t].rt.phase) ==>
              || (MadeUnavailable(old(d.State()), t) && old(d.turns)[t].sup.value.evidence.started)
              || SessionClash(old(d.State()), t, false)
              || (d.events == old(d.events) && |d.events| > 0 && Stamp(d.clock) >= DeadlineAt(d.State()))
    ensures r.Err? ==> d.events == old(d.events) || r.why.BadSave?
  {
    hide Inv, TerminalFor, ValidRuntime, BlockTimely, TerminalOutcome, MadeUnavailable, ChainConsistent, SessionStepOf, Settled, Newest,
      SessionClash;
    WorkerRole(d.State(), t);
    SnapshotValid(d.State(), t);
    ConsistentRunner(d.turns[t]);
    var turn := d.turns[t];
    var sn := turn.sup.value;
    var rt := CopyResult(turn.rt, sn);
    if MadeUnavailable(d.State(), t) && sn.evidence.started { return Err(BadSession); }
    var recorded := RecordSession(d, t, false);
    if !recorded { return Err(SessionConflict); }
    var terminal := TerminalFor(d.events, t);
    if terminal.Some? {
      OutcomesAgree(d.State(), t, terminal.value);
      r := EndTurn(d, t, EndedWith(rt, terminal.value), terminal.value);
      return;
    }
    var e := BlockNow(d, t, Recovery, None);
    TimelyBeforeDeadline(d.team, d.turns[t].rt, Recovery, Stamp(d.clock), DeadlineAt(d.State()));
    if e.Err? { return Err(e.why); }
    r := EndTurn(d, t, rt.(phase := RecoveryRequired, outcome := Some(Outcome.Failed), terminal := Some(e.value.id)), e.value);
  }

  lemma ConsistentRunner(turn: Turn)
    requires turn.sup.Some? && ChainConsistent(turn) && ValidSnapshot(turn.sup.value)
    ensures turn.rt.runner.Some? && (turn.sup.value.state.SupStopping? || turn.sup.value.state.SupFinished?) ==>
              turn.sup.value.runner == turn.rt.runner
    ensures turn.sup.value.state.SupFinished? && turn.sup.value.runner.None? ==> turn.runnerFile.None?
  {
  }

  // ---- the Supervisor reported the end and its own process is gone

  ghost predicate Reported(s: Store, t: nat) {
    && t < |s.turns| && s.turns[t].rt.executor.ByWorker? && s.turns[t].rt.before.Some?
    && s.turns[t].sup.Some? && s.turns[t].sup.value.state.SupFinished? && s.turns[t].sup.value.pid in s.dead
    && ChainConsistent(s.turns[t])
  }

  function ReportedEnd(turn: Turn, outcome: Outcome, terminal: EventId): Runtime
    requires turn.sup.Some?
  {
    CopyResult(turn.rt, turn.sup.value).(phase := Finalized, outcome := Some(outcome), terminal := Some(terminal))
  }

  lemma ReportedShape(s: Store, t: nat, outcome: Outcome, terminal: EventId)
    requires Inv(s) && Reported(s, t)
    ensures
      var rt := ReportedEnd(s.turns[t], outcome, terminal);
      EndingShape(s.turns[t], rt) && FromSnapshot(s.turns[t], rt) && GroupClosed(s.turns[t], s.dead)
  {
    hide Inv;
    SnapshotValid(s, t);
    hide ChainConsistent;
    ConsistentRunner(s.turns[t]);
  }

  lemma ReportSaves(s: Store, t: nat)
    requires Inv(s) && Reported(s, t) && s.turns[t].rt.phase.RecoveryRequired?
    ensures s.turns[t].rt.outcome.Some? && s.turns[t].rt.terminal.Some?
    ensures
      var rt := s.turns[t].rt;
      var end := ReportedEnd(s.turns[t], rt.outcome.value, rt.terminal.value);
      ValidRuntime(s.team, end) && SaveAllowed(rt, end) <==>
        rt.ending.kind.None? || rt.ending.kind == s.turns[t].sup.value.kind
  {
    hide Inv;
    TurnNamed(s, t);
    SnapshotValid(s, t);
    ReportContinues(s, t);
    ConsistentRunner(s.turns[t]);
    hide ChainConsistent;
  }

  lemma ReportContinues(s: Store, t: nat)
    requires Inv(s) && t < |s.turns|
    ensures Continues(s.turns[t].sup, s.turns[t].rt)
  {
    hide JournalInv, PolicyInv, SessionInv, CountInv;
    assert ProcOk(s.turns[t], t, s.dead, s.passed);
  }

  method EndReported(d: RunDirectory, t: nat, outcome: Outcome, e: Event) returns (r: Result<Option<Event>>)
    requires d.Valid() && Reported(d.State(), t) && TerminalFor(d.events, t) == Some(e) && outcome == OutcomeOf(e.body)
    requires d.turns[t].sup.value.evidence.ref.Some? ==> Settled(d.State(), t)
    modifies d
    ensures d.Valid() && old(d.history) <= d.history && d.events == old(d.events) && |d.turns| == |old(d.turns)|
    ensures r.Ok? ==> r == Ok(Some(e)) && Recorded(d.State(), t, e) && d.turns[t].rt.phase.Finalized?
                      && GroupClosed(d.turns[t], d.dead)
    ensures d.State() == old(d.State()).(turns := d.turns)
    ensures r.Ok? ==> d.turns == old(d.turns)[t := old(d.turns)[t].(rt := ReportedEnd(old(d.turns)[t], outcome, e.id))]
    ensures r.Err? ==> r.why.BadSave? && Ended(old(d.turns)[t].rt.phase)
  {
    hide Inv, TerminalFor, ValidRuntime, ChainConsistent, EndingShape, FromSnapshot, GroupClosed;
    ReportedShape(d.State(), t, outcome, e.id);
    r := EndTurn(d, t, ReportedEnd(d.turns[t], outcome, e.id), e);
  }

  method EndWithBlock(d: RunDirectory, t: nat, reason: BlockReason) returns (r: Result<Option<Event>>)
    requires d.Valid() && Reported(d.State(), t) && TerminalFor(d.events, t).None?
    requires reason.StartFailure? || reason.Permission? || reason.Recovery?
    requires d.turns[t].sup.value.evidence.ref.Some? ==> Settled(d.State(), t)
    modifies d
    ensures d.Valid() && old(d.history) <= d.history && |d.turns| == |old(d.turns)|
    ensures r.Ok? ==> r.value.Some? && Recorded(d.State(), t, r.value.value) && d.turns[t].rt.phase.Finalized?
                      && GroupClosed(d.turns[t], d.dead) && r.value.value.body == Block(reason, None) && |d.events| > 0
    ensures r.Ok? ==> d.events == old(d.events) + [r.value.value] && old(d.clock) <= d.clock
                      && Stamp(d.clock) < DeadlineAt(d.State())
    ensures r.Err? && !Ended(old(d.turns)[t].rt.phase) ==>
              d.events == old(d.events) && |d.events| > 0 && Stamp(d.clock) >= DeadlineAt(d.State())
  {
    hide Inv, TerminalFor, ValidRuntime, ChainConsistent, BlockTimely, GroupClosed;
    WorkerRole(d.State(), t);
    var e := BlockNow(d, t, reason, None);
    TimelyBeforeDeadline(d.team, d.turns[t].rt, reason, Stamp(d.clock), DeadlineAt(d.State()));
    if e.Err? { return Err(e.why); }
    r := EndReported(d, t, Outcome.Failed, e.value);
  }

  // The event of a delivery from `m` to `x`, or the Recovery that stands in for
  // it when an artifact is damaged or the workspace could not be captured.
  predicate DeliveredAs(m: Store, x: Store, t: nat, mode: Mode, allowCapture: bool, c: Checks, e: Event)
    requires t < |m.turns| && t < |x.turns| && |x.events| > 0
  {
    || Answered(m, x, t, mode, allowCapture, c, e)
    || (e.body == Block(Recovery, None) && (DamageFound(m, t, mode, c) || !c.captures))
  }

  // Ending the Turn in its Runtime does not change what the event answered.
  lemma AnsweredStays(s: Store, x: Store, rt: Runtime, t: nat, mode: Mode, allowCapture: bool, c: Checks, e: Event)
    requires t < |s.turns| && t < |x.turns| && |x.events| > 0 && Answered(s, x, t, mode, allowCapture, c, e)
    requires SameClaim(x.turns[t].rt, rt) && rt.after == x.turns[t].rt.after
    ensures Answered(s, x.(turns := x.turns[t := x.turns[t].(rt := rt)]), t, mode, allowCapture, c, e)
  {
    hide Misdirected, UnsureFacts, DamagedFacts;
    Stability.SameCount(x.turns, x.turns[t := x.turns[t].(rt := rt)], {}, |x.turns|);
  }

  method EndWithDelivery(d: RunDirectory, t: nat, mode: Mode, allowCapture: bool, c: Checks) returns (r: Result<Option<Event>>)
    requires d.Valid() && Reported(d.State(), t) && TerminalFor(d.events, t).None? && ModeReady(d.State(), t, mode)
    modifies d
    ensures d.Valid() && old(d.history) <= d.history && |d.turns| == |old(d.turns)|
    ensures r.Ok? ==> r.value.Some? && Recorded(d.State(), t, r.value.value) && d.turns[t].rt.phase.Finalized?
                      && GroupClosed(d.turns[t], d.dead) && |d.events| > 0
                      && DeliveredAs(old(d.State()), d.State(), t, mode, allowCapture, c, r.value.value)
    ensures r.Err? && !Ended(old(d.turns)[t].rt.phase) ==>
              d.events == old(d.events) && |d.events| > 0 && Stamp(d.clock) >= DeadlineAt(d.State())
  {
    hide Inv, TerminalFor, ValidRuntime, GroupClosed, FrozenFor, Answered, DamageFound;
    ghost var s0 := d.State();
    var delivered := Deliver(d, t, mode, allowCapture, c);
    match delivered {
      case Damaged => r := EndWithBlock(d, t, Recovery);
      case Undelivered(why) =>
        TurnHasKickoff(d.State(), t);
        if why.Unavailable? { r := EndWithBlock(d, t, Recovery); } else { r := Err(why); }
      case Delivered(e) =>
        OutcomesAgree(d.State(), t, e);
        ghost var s1 := d.State();
        r := EndReported(d, t, TerminalOutcome(e), e);
        if r.Ok? {
          AnsweredStays(s0, s1, d.turns[t].rt, t, mode, allowCapture, c, e);
          assert d.State() == s1.(turns := s1.turns[t := s1.turns[t].(rt := d.turns[t].rt)]);
        }
    }
  }

  // What an adapter promises about the results it classifies.
  predicate OutputLimitContract(sn: Snapshot) {
    sn.kind == Some(OutputLimit) && sn.evidence.started && !sn.evidence.completed && !sn.evidence.permission && sn.evidence.ref.Some?
  }

  predicate CandidateContract(sn: Snapshot) {
    sn.kind == Some(CrashExit) && !sn.evidence.completed && !sn.evidence.permission && sn.quiescent && sn.evidence.ref.Some?
  }

  // _candidate_activation_return_role
  function ReturnRole(s: Store, t: nat): Option<RoleId>
    requires t < |s.turns| && 1 <= s.turns[t].rt.input.n <= |s.events|
  {
    var input := s.events[s.turns[t].rt.input.n - 1];
    if !input.body.Handoff? || input.to != s.turns[t].rt.role || input.from == s.turns[t].rt.role
       || input.from.None? || input.from.value !in s.team.roles
    then None else input.from
  }

  // classify_result: the normal completion of a headless Harness.
  predicate NormalCompletion(sn: Snapshot) {
    && sn.quiescent && sn.kind == Some(NormalExit) && sn.exitCode == Some(0)
    && sn.evidence.started && sn.evidence.completed && !sn.evidence.permission && sn.evidence.ref.Some?
  }

  // What the adapter's classifiers, the trace and the exec status say about one
  // reported end. They read frozen files, so asking again gives the same answers.
  datatype Answers = Answers(candidate: bool, truncated: bool, recoverable: bool, execError: bool)

  // The Turn failed while it activated a candidate.
  predicate Candidate(s: Store, t: nat, a: Answers)
    requires t < |s.turns| && s.turns[t].sup.Some?
  {
    a.candidate && !MadeUnavailable(s, t) && CandidateContract(s.turns[t].sup.value)
  }

  // How a reported Turn that no event has ended is to be ended.
  datatype Plan = Refuse | EndBlocked(reason: BlockReason) | EndDelivered(mode: Mode)

  function PlanFor(s: Store, t: nat, a: Answers): Plan
    requires t < |s.turns| && s.turns[t].sup.Some? && 1 <= s.turns[t].rt.input.n <= |s.events|
  {
    var sn := s.turns[t].sup.value;
    if MadeUnavailable(s, t) then (if sn.evidence.started then Refuse else EndBlocked(StartFailure))
    else if sn.evidence.permission then EndBlocked(Permission)
    else if a.truncated then EndBlocked(Recovery)
    else if a.recoverable && OutputLimitContract(sn) then EndDelivered(Continue)
    else if NormalCompletion(sn) then EndDelivered(OwnAction)
    else if Candidate(s, t, a) then
      (match ReturnRole(s, t)
       case None => EndBlocked(StartFailure)
       case Some(role) => EndDelivered(ReturnCandidate(role)))
    else EndBlocked(if !sn.evidence.started && (s.turns[t].auth.None? || a.execError) then StartFailure else Recovery)
  }

  // How the evidence, the Session and the answers decide the ending, case by case.
  predicate EndsAs(s: Store, x: Store, t: nat, a: Answers, allowCapture: bool, c: Checks, e: Event)
    requires t < |s.turns| && s.turns[t].sup.Some? && 1 <= s.turns[t].rt.input.n <= |s.events|
    requires s.turns[t].rt.role.Some? && s.turns[t].rt.role.value in s.team.roles && s.turns[t].rt.generation.Some?
    requires t < |x.turns| && |x.events| > 0
  {
    var sn, ev := s.turns[t].sup.value, s.turns[t].sup.value.evidence;
    var input := s.events[s.turns[t].rt.input.n - 1];
    var m := AfterSession(s, t, Candidate(s, t, a));
    var lost := MadeUnavailable(s, t);
    var plain := !lost && !ev.permission && !a.truncated;
    var exhausted := plain && a.recoverable && sn.kind == Some(OutputLimit) && ev.started && !ev.completed && ev.ref.Some?;
    var normal := plain && sn.kind == Some(NormalExit) && sn.exitCode == Some(0) && ev.started && ev.completed && ev.ref.Some?;
    var failed := plain && a.candidate && sn.kind == Some(CrashExit) && !ev.completed && ev.ref.Some?;
    var sent := input.body.Handoff? && input.to == s.turns[t].rt.role && input.from.Some?
                && input.from != s.turns[t].rt.role && input.from.value in s.team.roles;
    && (lost ==> !ev.started && e.body == Block(StartFailure, None))
    && (!lost && ev.permission ==> e.body == Block(Permission, None))
    && (!lost && !ev.permission && a.truncated ==> e.body == Block(Recovery, None))
    && (exhausted ==> DeliveredAs(m, x, t, Continue, allowCapture, c, e))
    && (normal ==> DeliveredAs(m, x, t, OwnAction, allowCapture, c, e))
    && (failed && sent ==> DeliveredAs(m, x, t, ReturnCandidate(input.from.value), allowCapture, c, e))
    && (failed && !sent ==> e.body == Block(StartFailure, None))
    && (plain && !exhausted && !normal && !failed ==>
          e.body == Block(if !ev.started && (s.turns[t].auth.None? || a.execError) then StartFailure else Recovery, None))
  }

  predicate Follows(m: Store, x: Store, t: nat, plan: Plan, allowCapture: bool, c: Checks, e: Event)
    requires t < |m.turns| && t < |x.turns| && |x.events| > 0
  {
    match plan
    case Refuse => false
    case EndBlocked(reason) => e.body == Block(reason, None)
    case EndDelivered(mode) => DeliveredAs(m, x, t, mode, allowCapture, c, e)
  }

  // The plan is the table.
  lemma PlanEnds(s: Store, x: Store, t: nat, a: Answers, allowCapture: bool, c: Checks, e: Event)
    requires t < |s.turns| && s.turns[t].sup.Some? && 1 <= s.turns[t].rt.input.n <= |s.events|
    requires s.turns[t].rt.role.Some? && s.turns[t].rt.role.value in s.team.roles && s.turns[t].rt.generation.Some?
    requires t < |x.turns| && |x.events| > 0 && s.turns[t].sup.value.quiescent
    requires Follows(AfterSession(s, t, Candidate(s, t, a)), x, t, PlanFor(s, t, a), allowCapture, c, e)
    ensures EndsAs(s, x, t, a, allowCapture, c, e)
  {
    hide DeliveredAs, AfterSession, MadeUnavailable;
  }

  // A failed start comes from a lost Session, from a failed candidate that
  // nobody sent, or from a Harness that never ran: exactly then.
  lemma StartFailureExactly(s: Store, x: Store, t: nat, a: Answers, allowCapture: bool, c: Checks, e: Event)
    requires t < |s.turns| && s.turns[t].sup.Some? && 1 <= s.turns[t].rt.input.n <= |s.events|
    requires s.turns[t].rt.role.Some? && s.turns[t].rt.role.value in s.team.roles && s.turns[t].rt.generation.Some?
    requires t < |x.turns| && |x.events| > 0 && EndsAs(s, x, t, a, allowCapture, c, e)
    ensures
      var sn, ev := s.turns[t].sup.value, s.turns[t].sup.value.evidence;
      var input := s.events[s.turns[t].rt.input.n - 1];
      var lost := MadeUnavailable(s, t);
      var plain := !lost && !ev.permission && !a.truncated;
      var failed := a.candidate && sn.kind == Some(CrashExit) && !ev.completed && ev.ref.Some?;
      var sent := input.body.Handoff? && input.to == s.turns[t].rt.role && input.from.Some?
                  && input.from != s.turns[t].rt.role && input.from.value in s.team.roles;
      e.body == Block(StartFailure, None) <==>
        || lost
        || (plain && failed && !sent)
        || (plain && !failed && !ev.started && (s.turns[t].auth.None? || a.execError))
  {
    hide AfterSession, MadeUnavailable, Misdirected, UnsureFacts, DamagedFacts, Unobstructed, DamageFound, ProjectedStatus, ProjectedOwner;
  }

  // A delivery is only planned when its Session has been recorded and the
  // evidence behind it is final.
  lemma PlanIsReady(s: Store, t: nat, a: Answers)
    requires Inv(s) && Reported(s, t) && PlanFor(s, t, a).EndDelivered?
    requires 1 <= s.turns[t].rt.input.n <= |s.events|
    requires s.turns[t].rt.role.Some? && s.turns[t].rt.role.value in s.team.roles && s.turns[t].rt.generation.Some?
    requires !SessionStepOf(s, t, Candidate(s, t, a)).Conflicts?
    ensures ModeReady(AfterSession(s, t, Candidate(s, t, a)), t, PlanFor(s, t, a).mode)
  {
    hide Inv, ChainConsistent, SessionStepOf, AfterSession;
    StepSettles(s, t, Candidate(s, t, a));
    if Candidate(s, t, a) && ReturnRole(s, t).Some? { ReturnsElsewhere(s, t); }
  }

  method EndAsPlanned(d: RunDirectory, t: nat, plan: Plan, allowCapture: bool, c: Checks) returns (r: Result<Option<Event>>)
    requires d.Valid() && Reported(d.State(), t) && TerminalFor(d.events, t).None?
    requires match plan
             case Refuse => false
             case EndBlocked(reason) => reason.StartFailure? || reason.Permission? || reason.Recovery?
             case EndDelivered(mode) => ModeReady(d.State(), t, mode)
    requires d.turns[t].sup.value.evidence.ref.Some? ==> Settled(d.State(), t)
    modifies d
    ensures d.Valid() && old(d.history) <= d.history && |d.turns| == |old(d.turns)|
    ensures r.Ok? ==> r.value.Some? && Recorded(d.State(), t, r.value.value) && d.turns[t].rt.phase.Finalized?
                      && GroupClosed(d.turns[t], d.dead) && |d.events| > 0
    ensures r.Ok? ==> Follows(old(d.State()), d.State(), t, plan, allowCapture, c, r.value.value)
    ensures r.Err? && !Ended(old(d.turns)[t].rt.phase) ==>
              d.events == old(d.events) && |d.events| > 0 && Stamp(d.clock) >= DeadlineAt(d.State())
  {
    hide Inv, TerminalFor, GroupClosed, ChainConsistent, DeliveredAs, Settled, ModeReady, Recorded;
    match plan {
      case EndBlocked(reason) => r := EndWithBlock(d, t, reason);
      case EndDelivered(mode) => r := EndWithDelivery(d, t, mode, allowCapture, c);
    }
  }

  method FinalizeReported(d: RunDirectory, t: nat, a: Answers, allowCapture: bool, c: Checks) returns (r: Result<Option<Event>>)
    requires d.Valid() && Reported(d.State(), t) && Newest(d.State(), t)
    modifies d
    ensures d.Valid() && old(d.history) <= d.history && |d.turns| == |old(d.turns)|
    ensures r.Ok? ==> r.value.Some? && Recorded(d.State(), t, r.value.value) && d.turns[t].rt.phase.Finalized?
                      && GroupClosed(d.turns[t], d.dead) && |d.events| > 0
    ensures 1 <= old(d.turns)[t].rt.input.n <= |old(d.events)|
    ensures old(d.turns)[t].rt.role.Some? && old(d.turns)[t].rt.role.value in d.team.roles && old(d.turns)[t].rt.generation.Some?
    ensures r.Ok? && TerminalFor(old(d.events), t).None? ==>
              EndsAs(old(d.State()), d.State(), t, a, allowCapture, c, r.value.value)
    ensures MadeUnavailable(old(d.State()), t) && old(d.turns)[t].sup.value.evidence.started ==>
              r == Err(BadSession) && d.State() == old(d.State())
    ensures r.Err? && !Ended(old(d.turns)[t].rt.phase) ==>
              || (MadeUnavailable(old(d.State()), t) && old(d.turns)[t].sup.value.evidence.started)
              || SessionClash(old(d.State()), t, Candidate(old(d.State()), t, a))
              || (d.events == old(d.events) && |d.events| > 0 && Stamp(d.clock) >= DeadlineAt(d.State()))
  {
    hide Inv, TerminalFor, ValidRuntime, GroupClosed, ChainConsistent, MadeUnavailable, ReturnRole, AfterSession,
      SessionStepOf, Settled, ModeReady, Newest, PlanFor, Candidate, Follows, EndsAs, SessionClash;
    WorkerRole(d.State(), t);
    InputPosition(d.State(), t);
    SnapshotValid(d.State(), t);
    var plan := PlanFor(d.State(), t, a);
    PlanKinds(d.State(), t, a);
    if plan.Refuse? { return Err(BadSession); }
    ghost var s0 := d.State();
    var candidate := Candidate(d.State(), t, a);
    if plan.EndDelivered? && !SessionStepOf(d.State(), t, candidate).Conflicts? { PlanIsReady(d.State(), t, a); }
    if !SessionStepOf(d.State(), t, candidate).Conflicts? { StepSettles(d.State(), t, candidate); }
    var recorded := RecordSession(d, t, candidate);
    if !recorded { return Err(SessionConflict); }
    var terminal := TerminalFor(d.events, t);
    if terminal.Some? {
      OutcomesAgree(d.State(), t, terminal.value);
      r := EndReported(d, t, TerminalOutcome(terminal.value), terminal.value);
      return;
    }
    r := EndAsPlanned(d, t, plan, allowCapture, c);
    if r.Ok? { PlanEnds(s0, d.State(), t, a, allowCapture, c, r.value.value); }
  }

  // The step done once more changes nothing.
  lemma StepIsFinal(s: Store, t: nat, a: Answers)
    requires t < |s.turns| && s.turns[t].sup.Some? && !MadeUnavailable(s, t)
    requires s.turns[t].rt.role.Some? && s.turns[t].rt.role.value in s.team.roles && s.turns[t].rt.generation.Some?
    requires SessionStepOf(s, t, Candidate(s, t, a)).Writes?
    ensures
      var x := AfterSession(s, t, Candidate(s, t, a));
      AfterSession(x, t, Candidate(x, t, a)) == x && !SessionStepOf(x, t, Candidate(x, t, a)).Conflicts?
  {
  }

  // Only a failed candidate makes its own Session unavailable.
  lemma StepMarks(s: Store, t: nat, candidate: bool)
    requires t < |s.turns| && s.turns[t].sup.Some? && !MadeUnavailable(s, t)
    requires s.turns[t].rt.role.Some? && s.turns[t].rt.role.value in s.team.roles && s.turns[t].rt.generation.Some?
    requires SessionStepOf(s, t, candidate).Writes?
    ensures MadeUnavailable(AfterSession(s, t, candidate), t) <==> candidate
  {
  }

  lemma PlansDiffer(s: Store, x: Store, t: nat, a: Answers)
    requires t < |s.turns| && s.turns[t].sup.Some? && 1 <= s.turns[t].rt.input.n <= |s.events|
    requires x == s.(sessions := x.sessions) && !MadeUnavailable(s, t)
    requires MadeUnavailable(x, t) <==> Candidate(s, t, a)
    ensures PlanFor(x, t, a) == PlanFor(s, t, a) <==>
              !Candidate(s, t, a) || (!s.turns[t].sup.value.evidence.started && !a.truncated && ReturnRole(s, t).None?)
  {
    hide MadeUnavailable;
    assert ReturnRole(x, t) == ReturnRole(s, t);
    hide ReturnRole;
  }

  lemma PlanKinds(s: Store, t: nat, a: Answers)
    requires t < |s.turns| && s.turns[t].sup.Some? && 1 <= s.turns[t].rt.input.n <= |s.events|
    ensures
      var plan := PlanFor(s, t, a);
      && (plan.EndBlocked? ==> plan.reason.StartFailure? || plan.reason.Permission? || plan.reason.Recovery?)
      && (plan.Refuse? <==> MadeUnavailable(s, t) && s.turns[t].sup.value.evidence.started)
    ensures Candidate(s, t, a) ==> s.turns[t].sup.value.evidence.ref.Some?
  {
    hide MadeUnavailable, ReturnRole;
  }

  lemma ReturnsElsewhere(s: Store, t: nat)
    requires t < |s.turns| && 1 <= s.turns[t].rt.input.n <= |s.events| && ReturnRole(s, t).Some?
    ensures ReturnRole(s, t).value in s.team.roles && s.turns[t].rt.role != ReturnRole(s, t)
  {
  }

  // ---- the Supervisor reported the end, but its own exit cannot be checked

  function DoubtfulEnd(turn: Turn, e: Event): Runtime
    requires turn.sup.Some?
  {
    CopyResult(turn.rt, turn.sup.value).(phase := RecoveryRequired, outcome := Some(Outcome.Failed), terminal := Some(e.id))
  }

  // The outcome "failed" is recorded without looking at the event that ended
  // the Turn. If that event was not a failure, the directory no longer scans.
  lemma DoubtfulEndScans(s: Store, t: nat, e: Event)
    requires Inv(s) && t < |s.turns| && s.turns[t].rt.executor.ByWorker?
    requires s.turns[t].sup.Some? && s.turns[t].sup.value.state.SupFinished? && ChainConsistent(s.turns[t])
    requires TerminalFor(s.events, t) == Some(e)
    requires ValidRuntime(s.team, DoubtfulEnd(s.turns[t], e)) && SaveAllowed(s.turns[t].rt, DoubtfulEnd(s.turns[t], e))
    ensures Scan.ScanVerdict(Apply(s, Save(t, DoubtfulEnd(s.turns[t], e)))).Ok? <==> OutcomeOf(e.body).Failed?
    ensures OutcomeOf(e.body).Failed? ==> SaveAllowedNow(s, t, DoubtfulEnd(s.turns[t], e))
  {
    hide Inv, ValidRuntime, SaveAllowed, SaveAllowedNow, TerminalFor, ChainConsistent, Scan.ScanVerdict;
    if OutcomeOf(e.body).Failed? { FailureEndScans(s, t, e); } else { OtherEndRefused(s, t, e); }
  }

  lemma FailureEndScans(s: Store, t: nat, e: Event)
    requires Inv(s) && t < |s.turns| && s.turns[t].rt.executor.ByWorker?
    requires s.turns[t].sup.Some? && s.turns[t].sup.value.state.SupFinished? && ChainConsistent(s.turns[t])
    requires TerminalFor(s.events, t) == Some(e) && OutcomeOf(e.body).Failed?
    requires ValidRuntime(s.team, DoubtfulEnd(s.turns[t], e)) && SaveAllowed(s.turns[t].rt, DoubtfulEnd(s.turns[t], e))
    ensures SaveAllowedNow(s, t, DoubtfulEnd(s.turns[t], e))
    ensures Scan.ScanVerdict(Apply(s, Save(t, DoubtfulEnd(s.turns[t], e)))).Ok?
  {
    hide Inv, ValidRuntime, SaveAllowed, SaveAllowedNow, TerminalFor, FromSnapshot, ChainConsistent, Scan.ScanVerdict, CursorAt, Apply;
    var rt := DoubtfulEnd(s.turns[t], e);
    DoubtfulFromSnapshot(s, t, e);
    EndingSaveAllowed(s, t, rt, e);
    Safety.WriteKeepsInv(s, Save(t, rt));
    Scan.InvScans(Apply(s, Save(t, rt)));
  }

  lemma OtherEndRefused(s: Store, t: nat, e: Event)
    requires Inv(s) && t < |s.turns| && s.turns[t].sup.Some?
    requires TerminalFor(s.events, t) == Some(e) && !OutcomeOf(e.body).Failed?
    ensures Scan.ScanVerdict(Apply(s, Save(t, DoubtfulEnd(s.turns[t], e)))).Err?
  {
    hide Inv, TerminalFor, Linked, Scan.ScanVerdict;
    EndingKind(s, t, e);
    WrongOutcomeUnlinked(s.events, DoubtfulEnd(s.turns[t], e), e);
    Scan.UnlinkedRefused(Apply(s, Save(t, DoubtfulEnd(s.turns[t], e))), t);
  }

  lemma DoubtfulFromSnapshot(s: Store, t: nat, e: Event)
    requires Inv(s) && t < |s.turns| && s.turns[t].sup.Some? && s.turns[t].sup.value.state.SupFinished?
    requires ChainConsistent(s.turns[t])
    ensures FromSnapshot(s.turns[t], DoubtfulEnd(s.turns[t], e))
  {
    hide Inv;
    SnapshotValid(s, t);
  }

  lemma WrongOutcomeUnlinked(events: seq<Event>, rt: Runtime, e: Event)
    requires 1 <= e.id.n <= |events| && events[e.id.n - 1] == e && rt.terminal == Some(e.id)
    requires rt.outcome != Some(OutcomeOf(e.body))
    ensures !Linked(events, rt)
  {
  }

  method FinalizeDoubtful(d: RunDirectory, t: nat) returns (r: Result<Option<Event>>)
    requires d.Valid() && t < |d.turns| && d.turns[t].rt.executor.ByWorker? && d.turns[t].rt.business.Some?
    requires d.turns[t].sup.Some? && d.turns[t].sup.value.state.SupFinished? && ChainConsistent(d.turns[t])
    modifies d
    ensures old(d.history) <= d.history && |d.turns| == |old(d.turns)|
    ensures r.Err? ==> d.Valid()
    ensures r.Ok? ==> r.value.Some? && TerminalFor(d.events, t) == r.value && d.turns[t].rt.phase.RecoveryRequired?
    ensures r.Ok? ==> d.turns[t].rt.terminal == Some(r.value.value.id)
    ensures r.Ok? ==> (Scan.ScanVerdict(d.State()).Ok? <==> OutcomeOf(r.value.value.body).Failed?)
    ensures r.Ok? && OutcomeOf(r.value.value.body).Failed? ==> d.Valid() && Recorded(d.State(), t, r.value.value)
    ensures r.Ok? && TerminalFor(old(d.events), t).None? ==>
              d.events == old(d.events) + [r.value.value] && r.value.value.body == Block(Recovery, None)
    ensures r.Ok? && TerminalFor(old(d.events), t).Some? ==> r.value == TerminalFor(old(d.events), t)
    ensures d.turns[t].sup == old(d.turns)[t].sup
  {
    hide Inv, TerminalFor, ValidRuntime, SaveAllowed, SaveAllowedNow, BlockTimely, ChainConsistent, Scan.ScanVerdict;
    var e := BlockNow(d, t, Recovery, None);
    if e.Err? { return Err(e.why); }
    var rt := DoubtfulEnd(d.turns[t], e.value);
    if ValidRuntime(d.team, rt) && SaveAllowed(d.turns[t].rt, rt) { DoubtfulEndScans(d.State(), t, e.value); }
    var saved := d.SaveRuntime(t, rt);
    r := if saved then Ok(Some(e.value)) else Err(BadSave);
  }

  // ---- the dispatch

  // A stopping snapshot whose result is complete is closed by the finalizer.
  method CloseStopped(d: RunDirectory, t: nat) returns (closed: bool)
    requires d.Valid() && t < |d.turns| && d.turns[t].rt.executor.ByWorker? && d.turns[t].sup.Some?
    requires d.turns[t].sup.value.state.SupStopping? && ChainConsistent(d.turns[t])
    modifies d
    ensures d.Valid() && old(d.history) <= d.history && |d.turns| == |old(d.turns)|
    ensures old(d.dead) <= d.dead
    ensures d.State() == old(d.State()).(turns := d.turns, dead := d.dead)
    ensures d.turns == old(d.turns)[t := old(d.turns)[t].(sup := d.turns[t].sup)] && d.turns[t].sup.Some?
    ensures d.turns[t].sup.value.pid == old(d.turns)[t].sup.value.pid && ChainConsistent(d.turns[t])
    ensures if closed then d.turns[t].sup == Some(old(d.turns)[t].sup.value.(state := SupFinished, quiescent := true))
            else d.turns == old(d.turns)
  {
    hide Inv;
    SnapshotValid(d.State(), t);
    ByWorkerIfSupervised(d.State(), t);
    var sn := d.turns[t].sup.value;
    var quiescent := GroupQuiescent(d, sn.runner);
    closed := quiescent && sn.exitCode.Some? && sn.kind.Some?;
    if closed {
      d.Perform(PutSupervisor(t, sn.(state := SupFinished, quiescent := true)));
    }
  }

  lemma PendingUnlaunched(s: Store, t: nat)
    requires Inv(s) && t < |s.turns| && DeadlinePending(s.turns[t].rt)
    ensures s.turns[t].runnerFile.None? && s.turns[t].sup.None?
  {
    hide Inv;
    UnlaunchedHasNoFiles(s, t);
  }

  lemma StartedWithFacts(s: Store, t: nat)
    requires Inv(s) && t < |s.turns| && s.turns[t].rt.executor.ByWorker?
    requires !s.turns[t].rt.phase.Finalized? && !DeadlinePending(s.turns[t].rt)
    ensures s.turns[t].rt.before.Some?
  {
    hide Inv;
    TurnNamed(s, t);
  }

  // Behind the first checks: a Supervisor has announced itself, and its files
  // belong together.
  method FinalizeSupervised(d: RunDirectory, t: nat, allowCapture: bool) returns (r: Result<Option<Event>>)
    requires d.Valid() && t < |d.turns| && d.turns[t].rt.executor.ByWorker? && Newest(d.State(), t)
    requires d.turns[t].rt.before.Some? && d.turns[t].sup.Some? && ChainConsistent(d.turns[t])
    modifies d
    ensures old(d.history) <= d.history && |d.turns| == |old(d.turns)|
    ensures d.Valid() <==> Scan.ScanVerdict(d.State()).Ok?
    ensures !d.Valid() ==>
              && TerminalFor(old(d.events), t).Some? && !OutcomeOf(TerminalFor(old(d.events), t).value.body).Failed?
              && d.turns[t].sup.Some? && d.turns[t].sup.value.state.SupFinished?
              && d.turns[t].rt.phase.RecoveryRequired?
    ensures r == Ok(None) ==> old(d.turns)[t].sup.value.pid !in old(d.dead)
    ensures d.Valid() && r.Ok? && r.value.Some? ==>
              && Recorded(d.State(), t, r.value.value)
              && (d.turns[t].rt.phase.Finalized? ==> GroupClosed(d.turns[t], d.dead))
  {
    hide Inv, TerminalFor, ValidRuntime, ChainConsistent, Scan.ScanVerdict, EndsAs, MadeUnavailable, GroupClosed;
    var sn := d.turns[t].sup.value;
    var identity := Identity(d, sn.pid);
    if sn.state.SupFinished? && identity.Unknown? {
      WorkerRole(d.State(), t);
      r := FinalizeDoubtful(d, t);
      if d.Valid() { Scan.InvScans(d.State()); }
      return;
    }
    if identity.Match? {
      Scan.InvScans(d.State());
      return Ok(None);
    }
    if !sn.state.SupFinished? && !sn.state.SupStopping? {
      r := FinalizeVanished(d, t, identity.Gone?);
      Scan.InvScans(d.State());
      return;
    }
    var closed := sn.state.SupFinished?;
    if sn.state.SupStopping? && identity.Gone? { closed := CloseStopped(d, t); }
    if closed {
      var answers: Answers, checks: Checks := *, *;
      r := FinalizeReported(d, t, answers, allowCapture, checks);
    } else {
      r := FinalizeStopping(d, t);
    }
    Scan.InvScans(d.State());
  }

  // finalize_external_turn_locked. The directory it leaves scans unless the
  // Supervisor's exit was in doubt while another event had ended the Turn.
  method FinalizeExternal(d: RunDirectory, t: nat, allowCapture: bool) returns (r: Result<Option<Event>>)
    requires d.Valid() && t < |d.turns| && d.turns[t].rt.executor.ByWorker? && Newest(d.State(), t)
    requires d.turns[t].rt.phase.Finalized? ==> d.turns[t].rt.before.Some?
    modifies d
    ensures old(d.history) <= d.history && |d.turns| == |old(d.turns)|
    ensures d.Valid() <==> Scan.ScanVerdict(d.State()).Ok?
    ensures !d.Valid() ==>
              && TerminalFor(old(d.events), t).Some? && !OutcomeOf(TerminalFor(old(d.events), t).value.body).Failed?
              && d.turns[t].sup.Some? && d.turns[t].sup.value.state.SupFinished?
              && d.turns[t].rt.phase.RecoveryRequired?
    ensures r == Ok(None) ==>
              if old(d.turns)[t].sup.Some? then old(d.turns)[t].sup.value.pid !in old(d.dead)
              else TerminalFor(old(d.events), t).None? && !DeadlinePending(old(d.turns)[t].rt)
    ensures d.Valid() && r.Ok? && r.value.Some? ==>
              && Recorded(d.State(), t, r.value.value)
              && (d.turns[t].rt.phase.Finalized? ==> GroupClosed(d.turns[t], d.dead))
  {
    hide Inv, TerminalFor, ValidRuntime, ChainConsistent, DeadlinePending, Scan.ScanVerdict;
    if DeadlinePending(d.turns[t].rt) {
      PendingUnlaunched(d.State(), t);
      var e := FinalizeDeadlineBeforeClaim(d, t);
      Scan.InvScans(d.State());
      if e.Err? { return Err(e.why); }
      return Ok(Some(e.value));
    }
    if !d.turns[t].rt.phase.Finalized? { StartedWithFacts(d.State(), t); }
    if d.turns[t].sup.None? {
      r := FinalizeUnsupervised(d, t);
      Scan.InvScans(d.State());
      return;
    }
    if !ChainConsistent(d.turns[t]) {
      Scan.InvScans(d.State());
      return Err(BadProcessChain);
    }
    r := FinalizeSupervised(d, t, allowCapture);
  }
}
