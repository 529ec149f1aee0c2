/** The event validator and the journal replay. */
module Journal {
  import opened Model
  import opened Options

  // What the replay remembers between two events.
  datatype Cursor = Cursor(
    status: Status,
    owner: Option<RoleId>,
    previous: Option<Event>,
    kickoff: Option<Event>,
    terminals: set<nat>)

  const Fresh0 := Cursor(UnstartedRun, None, None, None, {})

  function Claims(turns: seq<Turn>, id: EventId): set<nat> {
    set t | 0 <= t < |turns| && turns[t].rt.input == id
  }

  function OptionSet(t: Option<nat>): set<nat> {
    if t.Some? then {t.value} else {}
  }

  predicate TerminalFree(rt: Runtime, e: Event) {
    rt.terminal.None? || rt.terminal.value == e.id
  }

  // Evidence an automatic continuation needs once it has been persisted.
  predicate ContinuationEvidence(rt: Runtime) {
    && rt.executor.ByWorker?
    && rt.ending.kind == Some(OutputLimit)
    && rt.evidence.started && !rt.evidence.completed && !rt.evidence.permission
    && rt.ending.quiescent == Some(true)
    && rt.evidence.ref.Some?
  }

  predicate CandidateEvidence(rt: Runtime) {
    && rt.executor.ByWorker?
    && rt.ending.kind == Some(CrashExit)
    && !rt.evidence.completed && !rt.evidence.permission
    && rt.ending.quiescent == Some(true)
    && rt.evidence.ref.Some?
  }

  predicate EvidenceAllows(rt: Runtime, why: HandoffWhy) {
    rt.ending.kind.Some? ==>
      && (why.Continuation? ==> ContinuationEvidence(rt))
      && (why.CandidateFailed? ==> CandidateEvidence(rt))
  }

  // Resume is refused while a Turn claimed earlier still needs recovery.
  predicate RecoveryGateClosed(turns: seq<Turn>, before: nat) {
    exists t :: 0 <= t < |turns| && turns[t].rt.phase.RecoveryRequired? && turns[t].rt.input.n < before
  }

  function ValidateCancel(e: Event, at: Cursor, turns: seq<Turn>): Result<(Status, Option<RoleId>)>
    requires at.previous.Some?
  {
    if at.status != RunningRun && at.status != BlockedRun then Err(NotCancellable)
    else
      var claims := Claims(turns, at.previous.value.id);
      if |claims| > 1 then Err(ManyClaims)
      else if e.from != (if at.status == RunningRun then at.owner else None) || e.to.Some? || claims != OptionSet(e.turn)
      then Err(BadCancel)
      else if e.turn.None? then Ok((CancelledRun, None))
      else if e.turn.value >= |turns| then Err(BadCancel)
      else
        var rt := turns[e.turn.value].rt;
        if at.status == RunningRun && rt.role != at.owner then Err(BadCancel)
        else if at.status == BlockedRun
            && (!rt.executor.ByOrigin? || rt.role.Some? || rt.input != at.previous.value.id) then Err(BadCancel)
        else if !TerminalFree(rt, e) then Err(BadCancel)
        else Ok((CancelledRun, None))
  }

  function ValidateResume(team: Team, e: Event, at: Cursor, businessBefore: nat, turns: seq<Turn>)
    : Result<(Status, Option<RoleId>)>
    requires at.previous.Some? && at.kickoff.Some?
  {
    var previous := at.previous.value;
    if at.status != BlockedRun || !previous.body.Block? then Err(NotResumable)
    else if previous.body.reason.Limit? || previous.body.reason.ProfileChanged? then Err(NotResumable)
    else if RecoveryGateClosed(turns, e.id.n) then Err(RecoveryGate)
    else if e.from.Some? || e.to.None? || e.turn.None? || e.created >= DeadlineOf(team, at.kickoff.value)
    then Err(BadResume)
    else if e.turn.value >= |turns| then Err(BadResume)
    else
      var rt := turns[e.turn.value].rt;
      if !rt.executor.ByOrigin? || rt.role.Some? || rt.business.Some? || rt.input != previous.id || !TerminalFree(rt, e)
      then Err(BadResume)
      else if businessBefore >= team.maxTurns then Err(TurnLimit)
      else Ok((RunningRun, e.to))
  }

  function ValidateHandoff(team: Team, e: Event, owner: RoleId, rt: Runtime, deadline: int)
    : Result<(Status, Option<RoleId>)>
    requires e.body.Handoff? && owner in team.roles
  {
    if e.to.None? || e.created >= deadline then Err(BadHandoff)
    else if e.body.why.Continuation?
        && (e.to != Some(owner) || e.from != Some(owner) || !team.roles[owner].binding.External?)
    then Err(BadContinuation)
    else if e.body.why.CandidateFailed?
        && (e.to == Some(owner) || !team.roles[owner].binding.External? || !team.roles[owner].policy.Fresh?)
    then Err(BadSystemHandoff)
    else if !EvidenceAllows(rt, e.body.why) then Err(BadContinuation)
    else if rt.business.None? || rt.business.value >= team.maxTurns then Err(TurnLimit)
    else Ok((RunningRun, e.to))
  }

  function ValidateBlock(team: Team, e: Event, rt: Runtime, deadline: int): Result<(Status, Option<RoleId>)>
    requires e.body.Block?
  {
    var reason := e.body.reason;
    var limit := e.body.limit;
    if e.to.Some? then Err(BadBlock)
    else if reason.Limit? && limit.None? then Err(BadLimit)
    else if reason.Limit? && limit.value.Deadline? && e.created < deadline then Err(BadLimit)
    else if reason.Limit? && limit.value.MaxTurns? && e.created >= deadline then Err(BadLimit)
    else if reason.Limit? && limit.value.MaxTurns? && rt.business != Some(team.maxTurns) then Err(BadLimit)
    else if !reason.Limit? && limit.Some? then Err(BadLimit)
    else if e.created >= deadline && !(reason.Limit? && limit == Some(Deadline)) then Err(PastDeadline)
    else Ok((BlockedRun, None))
  }

  // The reducer: every committed event passes it once when it is committed and
  // again, against the then-current Runtimes, on every later scan.
  function ValidateTransition(team: Team, e: Event, at: Cursor, businessBefore: nat, turns: seq<Turn>)
    : Result<(Status, Option<RoleId>)>
  {
    if (e.from.Some? && e.from.value !in team.roles) || (e.to.Some? && e.to.value !in team.roles) then Err(UnknownRole)
    else if e.body.Kickoff? then
      if at.status != UnstartedRun || at.previous.Some? || e.from.Some? || e.to != Some(team.initialRole) || e.turn.Some?
      then Err(BadKickoff)
      else Ok((RunningRun, e.to))
    else if at.previous.None? || at.kickoff.None? then Err(NoKickoff)
    else if e.prev != Some(at.previous.value.id) then Err(BrokenChain)
    else if e.created < at.previous.value.created then Err(ClockBackward)
    else if e.body.Cancel? then ValidateCancel(e, at, turns)
    else if e.body.Resume? then ValidateResume(team, e, at, businessBefore, turns)
    else if at.status != RunningRun || at.owner.None? || at.owner.value !in team.roles then Err(NoTokenOwner)
    else if e.turn.None? || e.turn.value in at.terminals || e.turn.value >= |turns| then Err(TurnSpent)
    else
      var rt := turns[e.turn.value].rt;
      var deadline := DeadlineOf(team, at.kickoff.value);
      if rt.role != at.owner || e.from != at.owner then Err(WrongSender)
      else if rt.input != at.previous.value.id || !TerminalFree(rt, e) then Err(WrongInput)
      else match e.body
        case Handoff(_) => ValidateHandoff(team, e, at.owner.value, rt, deadline)
        case Complete => if e.to.Some? || e.created >= deadline then Err(BadComplete) else Ok((CompletedRun, None))
        case Block(_, _) => ValidateBlock(team, e, rt, deadline)
        case _ => Err(BadBlock)
  }
}
