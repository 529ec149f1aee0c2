/**
 The Run as a machine whose steps are single durable writes.

 Every atomic file replacement of the program is one `Write`. A crash loses the
 rest of the block that was executing, never half a write, so the states that a
 crash can leave behind are exactly the states between two writes. `Permitted`
 lists what the program has checked when it performs a write; the methods of
 `RunDirectory` prove that they only perform permitted writes.
 */
module Machine {
  import opened Model
  import opened Options
  import opened Journal
  import opened Turns
  import opened Replay
  import opened Invariant
  import opened Sessions

  datatype Write =
    | Commit(e: Event)
    | Claim(rt: Runtime)
    | Save(t: nat, rt: Runtime)
    | PutSupervisor(t: nat, snap: Snapshot)
    | PutRunner(t: nat, pid: Pid)
    | PutAuthorization(t: nat, auth: Authorization)
    | PutAfter(t: nat, tree: Tree)
    | PutOutbox(t: nat, action: Action)
    | PutSession(t: nat, session: Session)
    // the Runner's gate, the clock and the operating system
    | PassGate(t: nat, pid: Pid)
    | Tick(now: int)
    | Die(pid: Pid)

  // A write that names an existing Turn (every permitted write does).
  predicate Addressed(s: Store, w: Write) {
    && (w.Save? || w.PutSupervisor? || w.PutRunner? || w.PutAuthorization? || w.PutAfter? || w.PutOutbox? || w.PutSession? ==>
          w.t < |s.turns|)
    && (w.PutSession? ==> s.turns[w.t].rt.role.Some?)
  }

  function Apply(s: Store, w: Write): Store {
    if !Addressed(s, w) then s
    else match w
      case Commit(e) => s.(events := s.events + [e])
      case Claim(rt) => s.(turns := s.turns + [Turn(rt, None, None, None, None, None)])
      case Save(t, rt) => s.(turns := s.turns[t := s.turns[t].(rt := rt)])
      case PutSupervisor(t, snap) => s.(turns := s.turns[t := s.turns[t].(sup := Some(snap))])
      case PutRunner(t, pid) => s.(turns := s.turns[t := s.turns[t].(runnerFile := Some(pid))])
      case PutAuthorization(t, auth) => s.(turns := s.turns[t := s.turns[t].(auth := Some(auth))])
      case PutAfter(t, tree) => s.(turns := s.turns[t := s.turns[t].(afterFile := Some(tree))])
      case PutOutbox(t, action) => s.(turns := s.turns[t := s.turns[t].(outbox := Some(action))])
      case PutSession(t, session) => s.(sessions := s.sessions[s.turns[t].rt.role.value := session])
      case PassGate(t, pid) => s.(passed := s.passed + {(t, pid)})
      case Tick(now) => s.(clock := now)
      case Die(pid) => s.(dead := s.dead + {pid})
  }

  // ---- supervisor.json

  predicate ValidSnapshot(sn: Snapshot) {
    && (sn.state.SupStarting? ==> sn.runner.None? && !sn.evidence.started)
    && (sn.state.SupWaiting? || sn.state.SupRunning? || sn.state.SupStopping? ==> sn.runner.Some?)
    && (sn.state.SupWaiting? ==> !sn.evidence.started)
    && (sn.state.SupRunning? ==> sn.evidence.started)
    && (sn.state.SupFinished? <==> sn.quiescent)
    && (sn.state.SupFinished? && sn.runner.None? ==> sn.evidence == NoEvidence)
    && (sn.evidence.completed ==> sn.evidence.started && !sn.evidence.permission)
    && (sn.state.SupStarting? || sn.state.SupWaiting? || sn.state.SupRunning? ==> sn.exitCode.None? && sn.kind.None?)
    && (sn.state.SupFinished? ==> sn.exitCode.Some? && sn.kind.Some?)
  }

  function StateOrder(s: SupState): nat {
    match s
    case SupStarting => 0
    case SupWaiting => 1
    case SupRunning => 2
    case SupStopping => 3
    case SupFinished => 4
  }

  predicate SnapshotAllowed(before: Snapshot, after: Snapshot) {
    && after.pid == before.pid
    && StateOrder(before.state) <= StateOrder(after.state)
    && KeptOnce(before.runner, after.runner)
    && EvidenceGrows(before.evidence, after.evidence)
    && KeptOnce(before.exitCode, after.exitCode)
    && KeptOnce(before.kind, after.kind)
  }

  function FirstSnapshot(pid: Pid): Snapshot {
    Snapshot(SupStarting, pid, None, NoEvidence, None, None, false)
  }

  // ---- per-Turn process invariant

  // What a Runtime has recorded of the Harness process is what the Supervisor's
  // snapshot still says, or less.
  predicate Continues(sup: Option<Snapshot>, rt: Runtime) {
    match sup
    case None => rt.evidence == NoEvidence && rt.ending.exitCode.None?
    case Some(sn) => EvidenceGrows(rt.evidence, sn.evidence) && KeptOnce(rt.ending.exitCode, sn.exitCode)
  }

  predicate ProcOk(turn: Turn, t: nat, dead: set<Pid>, passed: set<(nat, Pid)>) {
    var rt := turn.rt;
    && (turn.sup.Some? || turn.runnerFile.Some? || turn.auth.Some? ==> rt.executor.ByWorker? && rt.nonce.Some?)
    && (turn.sup.Some? ==> ValidSnapshot(turn.sup.value))
    && (turn.sup.Some? && turn.sup.value.runner.Some? ==> turn.runnerFile == turn.sup.value.runner)
    && (turn.sup.Some? && turn.sup.value.state.SupFinished? && turn.sup.value.runner.Some? ==> turn.sup.value.runner.value in dead)
    && (rt.supervisor.Some? ==> turn.sup.Some? && turn.sup.value.pid == rt.supervisor.value)
    && (rt.runner.Some? ==> turn.runnerFile == rt.runner)
    && Continues(turn.sup, rt)
    && (turn.auth.Some? ==>
          && rt.supervisor == Some(turn.auth.value.supervisor)
          && rt.runner == Some(turn.auth.value.runner)
          && turn.sup.Some? && turn.sup.value.runner == rt.runner)
    && (rt.executor.ByWorker? && rt.phase.Running? ==> turn.auth.Some?)
    && (forall p | p in passed && p.0 == t :: turn.auth.Some? && turn.auth.value.runner == p.1)
    && (rt.phase.Finalized? ==> forall p | p in passed && p.0 == t :: p.1 in dead)
    && (rt.executor.ByWorker? && rt.phase.Finalized? ==> turn.sup.None? || turn.sup.value.pid in dead)
  }

  predicate ProcInv(s: Store) {
    && (forall t | 0 <= t < |s.turns| :: ProcOk(s.turns[t], t, s.dead, s.passed))
    && (forall p | p in s.passed :: p.0 < |s.turns|)
  }

  // No Supervisor was ever announced, or it is provably gone, and so is the
  // Runner group unless no Runner was announced.
  predicate GroupClosed(turn: Turn, dead: set<Pid>) {
    turn.sup.Some? ==>
      && turn.sup.value.pid in dead
      && (turn.runnerFile.None? || turn.runnerFile.value in dead || turn.sup.value.state.SupFinished?)
  }

  // ---- what the journal itself does not check

  predicate Formal(body: Body) {
    body.Handoff? || body.Complete? || (body.Block? && body.reason.Agent?)
  }

  // Final, frozen process evidence behind a Handoff the system authored.
  predicate FrozenFor(turn: Turn, why: HandoffWhy, dead: set<Pid>) {
    && turn.rt.executor.ByWorker?
    && turn.sup.Some? && turn.sup.value.state.SupFinished? && turn.sup.value.pid in dead
    && var ev := turn.sup.value.evidence;
    && !ev.completed && !ev.permission && ev.ref.Some?
    && (why.Continuation? ==> turn.sup.value.kind == Some(OutputLimit) && ev.started)
    && (why.CandidateFailed? ==> turn.sup.value.kind == Some(CrashExit))
  }

  predicate EventPolicy(team: Team, e: Event, turns: seq<Turn>, dead: set<Pid>) {
    && (e.turn.Some? ==> e.turn.value < |turns|)
    && (e.body.Handoff? ==> e.turn.Some? && e.from.Some? && e.to.Some?)
    && (e.body.Handoff? && e.body.why.Selected? ==> team.AllowsHandoff(e.from.value, e.to.value))
    && (e.body.Handoff? && !e.body.why.Selected? ==> FrozenFor(turns[e.turn.value], e.body.why, dead))
    && (Formal(e.body) && e.turn.Some? && e.from.Some? && e.from.value in team.readOnly ==>
          && turns[e.turn.value].rt.before.Some?
          && turns[e.turn.value].rt.before == turns[e.turn.value].rt.after)
  }

  // A Turn that was allowed to start on a Handoff found the workspace as the
  // sender had left it.
  predicate Continuous(events: seq<Event>, turns: seq<Turn>, rt: Runtime) {
    1 <= rt.input.n <= |events| &&
    var input := events[rt.input.n - 1];
    input.body.Handoff? ==>
      && input.turn.Some? && input.turn.value < |turns|
      && turns[input.turn.value].rt.after.Some?
      && rt.before == turns[input.turn.value].rt.after
  }

  predicate Launched(rt: Runtime) {
    rt.nonce.Some? || (rt.business.Some? && rt.phase.Running?)
  }

  predicate PolicyInv(s: Store) {
    && (forall k | 0 <= k < |s.events| :: EventPolicy(s.team, s.events[k], s.turns, s.dead))
    && (forall t | 0 <= t < |s.turns| :: Launched(s.turns[t].rt) ==> Continuous(s.events, s.turns, s.turns[t].rt))
  }

  // ---- sessions

  predicate Lineage(turns: seq<Turn>, role: RoleId, session: Session, t: nat) {
    && t < |turns| && turns[t].rt.executor.ByWorker? && turns[t].rt.role == Some(role)
    && turns[t].rt.generation == Some(session.generation)
  }

  predicate SessionOk(team: Team, turns: seq<Turn>, role: RoleId, session: Session) {
    && role in team.roles && team.roles[role].binding.External?
    && ValidSession(session)
    && Lineage(turns, role, session, session.created)
    && Lineage(turns, role, session, session.updated)
    && session.created <= session.updated
    && (team.roles[role].policy.Resumable? && session.generation > 1 ==> turns[session.created].rt.input.kind.ResumeKind?)
    && (session.ref.Some? ==>
          turns[session.updated].sup.Some? && turns[session.updated].sup.value.evidence.ref == session.ref)
  }

  predicate Newest(s: Store, t: nat)
    requires t < |s.turns|
  {
    forall u | t < u < |s.turns| :: s.turns[u].rt.role != s.turns[t].rt.role
  }

  predicate StepHeld(s: Store, t: nat)
    requires t < |s.turns|
  {
    (&& s.turns[t].rt.executor.ByWorker? && s.turns[t].rt.role.Some? && s.turns[t].rt.role.value in s.team.roles
     && s.turns[t].rt.generation.Some? && Newest(s, t)) ==>
      InStep(s.team.roles[s.turns[t].rt.role.value].policy, Lookup(s.sessions, s.turns[t].rt.role.value),
             t, s.turns[t].rt.generation.value)
  }

  predicate OfRole(s: Store, t: nat)
    requires t < |s.turns|
  {
    && s.turns[t].rt.executor.ByWorker? && s.turns[t].rt.generation.Some?
    && s.turns[t].rt.role.Some? && s.turns[t].rt.role.value in s.team.roles
  }

  // The role resumes Sessions and the one it has is lost: only a Resume may
  // start a fresh one.
  predicate LostSession(s: Store, t: nat)
    requires t < |s.turns| && OfRole(s, t)
  {
    var role := s.turns[t].rt.role.value;
    s.team.roles[role].policy.Resumable? && role in s.sessions && s.sessions[role].ref.None?
  }

  // What a Worker checks of the Session before it takes the launch nonce.
  predicate LaunchFits(s: Store, t: nat)
    requires t < |s.turns|
  {
    && OfRole(s, t)
    && var role := s.turns[t].rt.role.value;
    && s.turns[t].rt.generation == Some(LaunchGeneration(s.team.roles[role].policy, Lookup(s.sessions, role)))
    && (LostSession(s, t) ==> s.turns[t].rt.input.kind.ResumeKind?)
  }

  // Until a Supervisor exists, nothing moves the Session a Turn was claimed with.
  predicate ClaimHeld(s: Store, t: nat)
    requires t < |s.turns|
  {
    OfRole(s, t) && Newest(s, t) && s.turns[t].sup.None? ==>
      s.turns[t].rt.generation == Some(LaunchGeneration(s.team.roles[s.turns[t].rt.role.value].policy,
                                                        Lookup(s.sessions, s.turns[t].rt.role.value)))
  }

  // A Turn that was launched behind a lost Session was claimed on a Resume.
  predicate LaunchHeld(s: Store, t: nat)
    requires t < |s.turns|
  {
    OfRole(s, t) && s.turns[t].rt.nonce.Some? && Newest(s, t) && LostSession(s, t)
    && s.sessions[s.turns[t].rt.role.value].generation < s.turns[t].rt.generation.value ==>
      s.turns[t].rt.input.kind.ResumeKind?
  }

  // Every later generation of a role that resumes Sessions began with a Resume.
  predicate StartedByResume(s: Store, t: nat)
    requires t < |s.turns|
  {
    OfRole(s, t) && s.turns[t].rt.nonce.Some? && s.team.roles[s.turns[t].rt.role.value].policy.Resumable?
    && s.turns[t].rt.generation.value > 1 ==>
      exists u | 0 <= u < |s.turns| :: Begins(s.turns[u].rt, s.turns[t].rt)
  }

  // Turn `a` was claimed on a Resume, for the same Session as `b`.
  predicate Begins(a: Runtime, b: Runtime) {
    a.role == b.role && a.generation == b.generation && a.input.kind.ResumeKind?
  }

  predicate LaunchOk(s: Store, t: nat)
    requires t < |s.turns|
  {
    LaunchHeld(s, t) && StartedByResume(s, t)
  }

  // The Session of the Turn's role was written last by this Turn.
  predicate Settled(s: Store, t: nat)
    requires t < |s.turns|
  {
    && s.turns[t].rt.role.Some? && s.turns[t].rt.role.value in s.sessions
    && s.sessions[s.turns[t].rt.role.value].updated == t
  }

  // The Supervisor reported a Session before it stopped.
  predicate NamedSession(turn: Turn) {
    && turn.rt.executor.ByWorker? && turn.sup.Some? && turn.sup.value.evidence.ref.Some?
    && (turn.sup.value.state.SupStopping? || turn.sup.value.state.SupFinished?)
  }

  // A Turn is not finalized before the Session it reported is recorded.
  predicate SettledBefore(s: Store, t: nat, rt: Runtime)
    requires t < |s.turns|
  {
    rt.phase.Finalized? && NamedSession(s.turns[t]) && Newest(s, t) ==> Settled(s, t)
  }

  predicate SettledOnce(s: Store, t: nat)
    requires t < |s.turns|
  {
    SettledBefore(s, t, s.turns[t].rt)
  }

  // A Worker's Turn hands the token on when its Supervisor is gone and its
  // Session recorded; only a failed candidate leaves an unavailable one.
  predicate Routed(s: Store, t: nat, why: HandoffWhy)
    requires t < |s.turns|
  {
    && s.turns[t].sup.Some? && s.turns[t].sup.value.pid in s.dead
    && Settled(s, t)
    && (!why.CandidateFailed? ==> s.sessions[s.turns[t].rt.role.value].ref.Some?)
  }

  predicate RouteHeld(s: Store, e: Event) {
    (&& e.body.Handoff? && e.turn.Some? && e.turn.value < |s.turns|
     && s.turns[e.turn.value].rt.executor.ByWorker? && Newest(s, e.turn.value)) ==>
      Routed(s, e.turn.value, e.body.why)
  }

  predicate SessionInv(s: Store) {
    && (forall role | role in s.sessions :: SessionOk(s.team, s.turns, role, s.sessions[role]))
    && (forall t | 0 <= t < |s.turns| :: StepHeld(s, t))
    && (forall t | 0 <= t < |s.turns| :: ClaimHeld(s, t))
    && (forall t | 0 <= t < |s.turns| :: LaunchOk(s, t))
    && (forall t | 0 <= t < |s.turns| :: SettledOnce(s, t))
    && (forall k | 0 <= k < |s.events| :: RouteHeld(s, s.events[k]))
  }

  // ---- limits

  predicate Starts(e: Event) { StatusAfter(e).RunningRun? }

  // Events that hand the token to a role.
  function RunningCount(events: seq<Event>, k: nat): nat
    requires k <= |events|
  {
    if k == 0 then 0 else RunningCount(events, k - 1) + (if Starts(events[k - 1]) then 1 else 0)
  }

  // The last token transfer has not been claimed by any Turn.
  predicate Pending(events: seq<Event>, turns: seq<Turn>) {
    exists k :: 0 <= k < |events| && Starts(events[k]) && Claims(turns, events[k].id) == {}
  }

  predicate CountInv(s: Store) {
    && RunningCount(s.events, |s.events|)
       == BusinessCount(s.turns, |s.turns|) + (if Pending(s.events, s.turns) then 1 else 0)
    && RunningCount(s.events, |s.events|) <= s.team.maxTurns
  }

  predicate ClockInv(s: Store) {
    forall k | 0 <= k < |s.events| :: s.events[k].created <= Stamp(s.clock)
  }

  predicate Inv(s: Store) {
    && s.team.Valid()
    && JournalInv(s.team, s.events, s.turns)
    && ProcInv(s)
    && PolicyInv(s)
    && SessionInv(s)
    && CountInv(s)
    && ClockInv(s)
  }

  // ---- what the program has established when it performs a write

  predicate CommitAllowed(s: Store, e: Event) {
    && Chained(s.events + [e])
    && StepAccepted(s.team, s.events + [e], s.turns, |s.events|)
    && e.created <= Stamp(s.clock)
    && EventPolicy(s.team, e, s.turns, s.dead)
    && RouteHeld(s, e)
  }

  predicate ClaimAllowed(s: Store, rt: Runtime) {
    && |s.events| > 0
    && rt.turn == |s.turns|
    && ValidRuntime(s.team, rt)
    && (forall t | 0 <= t < |s.turns| :: s.turns[t].rt.phase.Finalized?)
    && Claims(s.turns, s.events[|s.events| - 1].id) == {}
    && rt.input == s.events[|s.events| - 1].id
    && InputFits(rt, s.events[|s.events| - 1])
    && (rt.business.Some? ==> rt.business.value == BusinessCount(s.turns, |s.turns|) + 1)
    && (if rt.business.Some? then rt.phase.Starting? else rt.phase.Running?)
    && rt.nonce.None? && rt.supervisor.None? && rt.runner.None?
    && rt.evidence == NoEvidence && rt.terminal.None?
    && (rt.executor.ByWorker? ==>
          rt.generation == Some(LaunchGeneration(s.team.roles[rt.role.value].policy, Lookup(s.sessions, rt.role.value))))
  }

  predicate EndedBy(events: seq<Event>, t: nat, rt: Runtime) {
    forall k | 0 <= k < |events| && events[k].turn == Some(t) && events[k].body.Handoff? ::
      EvidenceAllows(rt, events[k].body.why)
  }

  predicate SaveKeepsProcess(turn: Turn, rt: Runtime, dead: set<Pid>) {
    && (rt.supervisor.Some? ==> turn.sup.Some? && turn.sup.value.pid == rt.supervisor.value)
    && (rt.runner.Some? ==> turn.runnerFile == rt.runner)
    && Continues(turn.sup, rt)
    && (rt.executor.ByWorker? && rt.phase.Running? ==> turn.auth.Some?)
    && (rt.executor.ByWorker? && rt.phase.Finalized? ==> GroupClosed(turn, dead))
  }

  predicate SaveAllowedNow(s: Store, t: nat, rt: Runtime) {
    && t < |s.turns|
    && ValidRuntime(s.team, rt)
    && SaveAllowed(s.turns[t].rt, rt)
    && Linked(s.events, rt)
    && EndedBy(s.events, t, rt)
    && SaveKeepsProcess(s.turns[t], rt, s.dead)
    && (Launched(rt) && !Launched(s.turns[t].rt) ==> Continuous(s.events, s.turns, rt))
    && SettledBefore(s, t, rt)
    && (rt.nonce.Some? && s.turns[t].rt.nonce.None? ==> LaunchFits(s, t))
  }

  predicate SupervisorAllowed(s: Store, t: nat, sn: Snapshot) {
    && t < |s.turns| && s.turns[t].rt.executor.ByWorker? && s.turns[t].rt.nonce.Some?
    && ValidSnapshot(sn)
    && (sn.runner.Some? ==> s.turns[t].runnerFile == sn.runner)
    && (sn.state.SupFinished? && sn.runner.Some? ==> sn.runner.value in s.dead)
    && match s.turns[t].sup
       case None => sn == FirstSnapshot(sn.pid) && !s.turns[t].rt.phase.Finalized? && (forall k | 0 <= k < |s.events| :: s.events[k].turn != Some(t))
       case Some(before) =>
         && SnapshotAllowed(before, sn)
         // the Supervisor itself, or the finalizer closing a stopped snapshot
         && (before.pid !in s.dead || (before.state.SupStopping? && sn == before.(state := SupFinished, quiescent := true)))
  }

  predicate AuthorizationAllowed(s: Store, t: nat, auth: Authorization) {
    && t < |s.turns|
    && var turn := s.turns[t];
    && turn.auth.None? && turn.rt.executor.ByWorker? && turn.rt.nonce.Some?
    && turn.rt.supervisor == Some(auth.supervisor) && turn.rt.runner == Some(auth.runner)
    && turn.sup.Some? && turn.sup.value.runner == Some(auth.runner)
    && turn.rt.phase.Starting?
  }

  // The Runner's own check, under the shared lock, before it executes the Harness.
  predicate GateOpens(s: Store, t: nat, pid: Pid) {
    && t < |s.turns| && pid !in s.dead
    && var turn := s.turns[t];
    && turn.auth.Some? && turn.auth.value.runner == pid
    && turn.rt.executor.ByWorker? && turn.rt.phase.Running?
    && turn.rt.runner == Some(pid)
    && turn.rt.supervisor == Some(turn.auth.value.supervisor)
  }

  // A Turn commits its Session once its output has been read, and its living
  // Supervisor may report the Session unavailable. Finalizing a Turn that is
  // already finalized writes the same Session again.
  predicate SessionAllowed(s: Store, t: nat, session: Session) {
    && t < |s.turns| && s.turns[t].rt.executor.ByWorker? && s.turns[t].rt.role.Some? && s.turns[t].rt.generation.Some?
    && Newest(s, t) && s.turns[t].sup.Some?
    && var role := s.turns[t].rt.role.value;
    && role in s.team.roles
    && var generation := s.turns[t].rt.generation.value;
    && var current := Lookup(s.sessions, role);
    && (|| (session.ref.Some? && CommitSession(current, t, generation, session.ref.value) == Written(session))
        || (&& session.reason.Some? && MarkUnavailable(current, t, generation, session.reason.value) == Written(session)
            && s.turns[t].sup.value.pid !in s.dead)
        || RecordCandidateFailure(s.team.roles[role].policy, current, t, generation) == Written(session))
    && (session.ref.Some? ==> s.turns[t].sup.value.evidence.ref == session.ref)
    && (s.turns[t].rt.phase.Finalized? ==> current == Some(session))
  }

  predicate Permitted(s: Store, w: Write) {
    match w
    case Commit(e) => CommitAllowed(s, e)
    case Claim(rt) => ClaimAllowed(s, rt)
    case Save(t, rt) => SaveAllowedNow(s, t, rt)
    case PutSupervisor(t, snap) => SupervisorAllowed(s, t, snap)
    case PutRunner(t, pid) => t < |s.turns| && s.turns[t].runnerFile.None? && s.turns[t].rt.executor.ByWorker? && s.turns[t].rt.nonce.Some?
    case PutAuthorization(t, auth) => AuthorizationAllowed(s, t, auth)
    case PutAfter(t, tree) => t < |s.turns| && s.turns[t].afterFile.None?
    case PutOutbox(t, action) => t < |s.turns| && s.turns[t].outbox.None?
    case PutSession(t, session) => SessionAllowed(s, t, session)
    case PassGate(t, pid) => GateOpens(s, t, pid)
    case Tick(now) => s.clock <= now
    case Die(pid) => true
  }
}
