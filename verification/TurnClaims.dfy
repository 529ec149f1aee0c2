/** Claiming the journal tail: business Turns, management Turns, and the Turn claimed too late. */
module TurnClaims {
  import opened Model
  import opened Options
  import opened Journal
  import opened Turns
  import opened Replay
  import opened Invariant
  import opened Sessions
  import opened Machine
  import opened Endings
  import opened Guards
  import opened FinalSaves
  import opened Directory
  import C = CommitProof
  import K = ClaimProof
  import Limits
  import Safety

  function ActiveTurns(turns: seq<Turn>): set<nat> {
    set t | 0 <= t < |turns| && Active(turns[t].rt.phase)
  }

  // "run has multiple active turns" and "input event has multiple turns" are
  // never raised: only the last Turn can be active, and no two share an input.
  lemma OneActiveOneClaimant(s: Store, id: EventId)
    requires Inv(s)
    ensures ActiveTurns(s.turns) == if |s.turns| > 0 && Active(s.turns[|s.turns| - 1].rt.phase) then {|s.turns| - 1} else {}
    ensures |Claims(s.turns, id)| <= 1
  {
    hide ProcInv, PolicyInv, SessionInv, CountInv, ValidRuntime, Linked, Accepted;
    var claims := Claims(s.turns, id);
    if t :| t in claims {
      forall u | u in claims ensures u == t { SameInput(s.turns, t, u); }
      assert claims == {t};
    }
  }

  // can_create_business_turn
  predicate BeforeDeadline(s: Store, now: int)
    requires |s.events| > 0
  {
    now < DeadlineOf(s.team, s.events[0]) * 1000
  }

  function BaseRuntime(t: nat, business: Option<nat>, input: EventId, role: Option<RoleId>, executor: Executor,
      generation: Option<nat>, before: Option<Tree>, claim: Option<nat>): Runtime
  {
    Runtime(t, business, input, role, executor, generation, before, claim, Starting, None, None, None, None, None,
            NoEvidence, NotEnded, None)
  }

  ghost predicate Claimable(s: Store, role: RoleId, executor: Executor) {
    && |s.events| > 0
    && StatusAfter(s.events[|s.events| - 1]).RunningRun?
    && s.events[|s.events| - 1].to == Some(role)
    && Claims(s.turns, s.events[|s.events| - 1].id) == {}
    && ActiveTurns(s.turns) == {}
    && role in s.team.roles
    && s.team.roles[role].binding == (if executor.ByWorker? then External else Origin)
  }

  function BusinessRuntime(s: Store, role: RoleId, executor: Executor, before: Option<Tree>, token: nat): Runtime
    requires |s.events| > 0 && role in s.team.roles
  {
    BaseRuntime(|s.turns|, Some(BusinessCount(s.turns, |s.turns|) + 1), s.events[|s.events| - 1].id, Some(role), executor,
                if executor.ByWorker? then Some(LaunchGeneration(s.team.roles[role].policy, Lookup(s.sessions, role))) else None,
                before,
                if executor.ByOrigin? && before.Some? then Some(token) else None)
  }

  lemma BusinessClaimAllowed(s: Store, role: RoleId, executor: Executor, before: Option<Tree>, token: nat)
    requires Inv(s) && Claimable(s, role, executor)
    ensures ClaimAllowed(s, BusinessRuntime(s, role, executor, before, token))
  {
    hide ProcInv, PolicyInv, CountInv, TurnsValid, AllLinked, Accepted, SessionInv;
    var tail := s.events[|s.events| - 1];
    assert tail.id.kind == tail.body.Kind();
    SessionNumbered(s, role);
    forall t | 0 <= t < |s.turns| ensures s.turns[t].rt.phase.Finalized? {
      assert t !in ActiveTurns(s.turns);
    }
  }

  lemma SessionNumbered(s: Store, role: RoleId)
    requires SessionInv(s) && role in s.team.roles
    ensures LaunchGeneration(s.team.roles[role].policy, Lookup(s.sessions, role)) >= 1
  {
    if role in s.sessions { assert SessionOk(s.team, s.turns, role, s.sessions[role]); }
  }

  lemma ManagementClaimAllowed(s: Store, token: nat)
    requires Inv(s) && |s.events| > 0 && s.events[|s.events| - 1].body.Block?
    requires Claims(s.turns, s.events[|s.events| - 1].id) == {} && ActiveTurns(s.turns) == {}
    ensures ClaimAllowed(s, ManagementRuntime(s, token))
  {
    hide ProcInv, PolicyInv, CountInv, TurnsValid, AllLinked, Accepted, SessionInv;
    var tail := s.events[|s.events| - 1];
    assert tail.id.kind == tail.body.Kind();
    forall t | 0 <= t < |s.turns| ensures s.turns[t].rt.phase.Finalized? {
      assert t !in ActiveTurns(s.turns);
    }
  }

  function ManagementRuntime(s: Store, token: nat): Runtime
    requires |s.events| > 0
  {
    BaseRuntime(|s.turns|, None, s.events[|s.events| - 1].id, None, ByOrigin, None, None, Some(token)).(phase := Running)
  }

  // ---- the Turn claimed after the deadline

  // A Turn's Runtime records how its terminal event ended it.
  predicate Recorded(s: Store, t: nat, e: Event) {
    && t < |s.turns|
    && TerminalFor(s.events, t) == Some(e)
    && s.turns[t].rt.terminal == Some(e.id)
    && s.turns[t].rt.outcome == Some(OutcomeOf(e.body))
    && Ended(s.turns[t].rt.phase)
  }

  predicate DeadlineBlock(e: Event) { e.body == Block(Limit, Some(Deadline)) }

  function DeadlineEnded(rt: Runtime, e: Event): Runtime {
    var ended := rt.(phase := Finalized, outcome := Some(Cancelled), terminal := Some(e.id));
    if rt.executor.ByWorker? then ended.(ending := Ending(rt.ending.exitCode, Some(DeadlineExit), Some(true))) else ended
  }

  lemma DeadlineEndsValid(s: Store, t: nat, e: Event)
    requires Inv(s) && t < |s.turns| && TerminalFor(s.events, t) == Some(e) && DeadlineBlock(e)
    requires DeadlinePending(s.turns[t].rt)
    ensures ValidRuntime(s.team, DeadlineEnded(s.turns[t].rt, e)) && SaveAllowed(s.turns[t].rt, DeadlineEnded(s.turns[t].rt, e))
  {
    hide Inv, TerminalFor;
    TurnNamed(s, t);
    EndingKind(s, t, e);
    NamedAt(s, e.id.n - 1);
  }

  lemma DeadlineEndAllowed(s: Store, t: nat, e: Event)
    requires Inv(s) && t < |s.turns| && TerminalFor(s.events, t) == Some(e) && DeadlineBlock(e)
    requires DeadlinePending(s.turns[t].rt)
    ensures SaveAllowedNow(s, t, DeadlineEnded(s.turns[t].rt, e))
    ensures ValidRuntime(s.team, DeadlineEnded(s.turns[t].rt, e)) && SaveAllowed(s.turns[t].rt, DeadlineEnded(s.turns[t].rt, e))
  {
    var rt := DeadlineEnded(s.turns[t].rt, e);
    DeadlineEndsValid(s, t, e);
    hide Inv, ValidRuntime, SaveAllowed, SaveAllowedNow, TerminalFor;
    UnlaunchedHasNoFiles(s, t);
    if rt.executor.ByWorker? { EndingSaveAllowed(s, t, rt, e); } else { OriginSaveAllowed(s, t, rt, e); }
  }

  lemma DeadlineBlockTaken(s: Store, t: nat, created: int)
    requires Inv(s) && t < |s.turns| && s.turns[t].rt.business.Some? && TerminalFor(s.events, t).None?
    requires |s.events| > 0 && DeadlineOf(s.team, s.events[0]) <= created == Stamp(s.clock)
    ensures Verdict(s, NextEvent(s.events, Block(Limit, Some(Deadline)), s.turns[t].rt.role, None, Some(t), created)).Ok?
  {
    UnendedIsOpen(s, t);
    BlockAccepted(s, t, Limit, Some(Deadline), created);
  }

  lemma TurnHasKickoff(s: Store, t: nat)
    requires Inv(s) && t < |s.turns|
    ensures |s.events| > 0
  {
    hide Inv;
    InputPosition(s, t);
  }

  // The Turn is closed unless something other than the deadline ended it first:
  // a Cancel that arrives between the claim and this call leaves it open for good.
  method FinalizeDeadlineBeforeClaim(d: RunDirectory, t: nat) returns (r: Result<Event>)
    requires d.Valid() && t < |d.turns|
    modifies d
    ensures d.Valid() && old(d.history) <= d.history
    ensures r.Ok? ==> Recorded(d.State(), t, r.value) && DeadlineBlock(r.value) && d.turns[t].rt.phase.Finalized?
    ensures |d.turns| == |old(d.turns)| && old(d.clock) <= d.clock && d.sessions == old(d.sessions)
    ensures d.turns[t].runnerFile == old(d.turns)[t].runnerFile && d.turns[t].sup == old(d.turns)[t].sup
    ensures |d.events| > 0 && (r.Ok? ==> !BeforeDeadline(d.State(), d.clock))
    ensures r.Ok? && TerminalFor(old(d.events), t).None? ==> d.events == old(d.events) + [r.value]
    ensures DeadlinePending(old(d.turns)[t].rt) && !BeforeDeadline(old(d.State()), old(d.clock)) ==>
              (r.Ok? <==> match TerminalFor(old(d.events), t) case None => true case Some(e) => DeadlineBlock(e))
  {
    hide Inv, ValidRuntime, SaveAllowed, SaveAllowedNow, TerminalFor, Verdict, TailId, DeadlinePending, DeadlineEnded;
    TurnHasKickoff(d.State(), t);
    if !DeadlinePending(d.turns[t].rt) { return Err(BadRuntime); }
    var now := d.Now();
    if BeforeDeadline(d.State(), now) { return Err(PastDeadline); }
    var existing := TerminalFor(d.events, t);
    if existing.Some? && !DeadlineBlock(existing.value) { return Err(BadLink); }
    now := d.Now();
    StampKeepsSide(now, DeadlineOf(d.team, d.events[0]));
    PendingIsBusiness(d.turns[t].rt);
    if existing.None? { DeadlineBlockTaken(d.State(), t, Stamp(now)); }
    r := d.CommitTechnicalBlock(t, Limit, Some(Deadline), Stamp(now));
    assert r.Ok?;
    var e := r.value;
    DeadlineEndAllowed(d.State(), t, e);
    var saved := d.SaveRuntime(t, DeadlineEnded(d.turns[t].rt, e));
    assert saved;
    DeadlineRecords(old(d.turns)[t].rt, e);
  }

  lemma PendingIsBusiness(rt: Runtime)
    requires DeadlinePending(rt)
    ensures rt.business.Some?
  {
  }

  lemma DeadlineRecords(rt: Runtime, e: Event)
    requires DeadlineBlock(e)
    ensures var ended := DeadlineEnded(rt, e);
            ended.terminal == Some(e.id) && ended.outcome == Some(OutcomeOf(e.body)) && ended.phase.Finalized?
  {
  }

  // ---- claims

  // Nothing was claimed, the deadline had passed, or a Turn waits to be
  // launched; a Discontinuous Turn must be ended without starting.
  datatype ClaimResult = NotClaimed | ClaimedTooLate | Claimed(t: nat) | Discontinuous(t: nat)

  function ProjectedStatus(s: Store): Status { CursorAt(s.events, |s.events|).status }
  function ProjectedOwner(s: Store): Option<RoleId> { CursorAt(s.events, |s.events|).owner }

  lemma RunningTail(s: Store, role: RoleId)
    requires Inv(s) && ProjectedStatus(s).RunningRun? && ProjectedOwner(s) == Some(role)
    ensures |s.events| > 0 && role in s.team.roles
    ensures StatusAfter(s.events[|s.events| - 1]).RunningRun? && s.events[|s.events| - 1].to == Some(role)
  {
    hide ProcInv, PolicyInv, SessionInv, CountInv, TurnsValid, AllLinked;
    assert StepAccepted(s.team, s.events, s.turns, |s.events| - 1);
    hide Accepted;
  }

  // The check of the claim loop: was the workspace left as the sender froze it?
  predicate ContinuityHolds(s: Store, t: nat)
    requires t < |s.turns| && |s.events| > 0
  {
    var input := s.events[|s.events| - 1];
    input.body.Handoff? && input.turn.Some? && input.turn.value < |s.turns| ==>
      s.turns[input.turn.value].rt.after.Some? && s.turns[t].rt.before == s.turns[input.turn.value].rt.after
  }

  lemma ContinuityMeans(s: Store, t: nat)
    requires Inv(s) && t < |s.turns| && s.turns[t].rt.input.n == |s.events|
    requires |s.events| > 0 && ContinuityHolds(s, t)
    ensures Continuous(s.events, s.turns, s.turns[t].rt)
  {
    hide Inv;
    if |s.events| > 1 { StepFactsAt(s, |s.events| - 1); }
    KickoffOnlyFirst(s);
  }

  lemma KickoffOnlyFirst(s: Store)
    requires Inv(s) && |s.events| > 0
    ensures s.events[0].body.Kickoff?
  {
    hide ProcInv, PolicyInv, SessionInv, CountInv, TurnsValid, AllLinked, ValidateTransition;
    assert StepAccepted(s.team, s.events, s.turns, 0);
  }

  lemma RoomForClaim(s: Store)
    requires Inv(s) && |s.events| > 0 && StatusAfter(s.events[|s.events| - 1]).RunningRun?
    requires Claims(s.turns, s.events[|s.events| - 1].id) == {}
    ensures BusinessCount(s.turns, |s.turns|) < s.team.maxTurns
  {
    hide Inv;
    Limits.Bounded(s);
  }

  lemma FreshTurnUnended(s: Store, rt: Runtime)
    requires Inv(s) && ClaimAllowed(s, rt)
    ensures Inv(Apply(s, Claim(rt))) && TerminalFor(Apply(s, Claim(rt)).events, |s.turns|).None?
  {
    hide ProcInv, PolicyInv, SessionInv, CountInv, Accepted, ValidRuntime, Linked;
    K.ClaimKeepsJournal(s, rt);
    Safety.WriteKeepsInv(s, Claim(rt));
    var s' := Apply(s, Claim(rt));
    assert rt.input.n == |s.events|;
    hide Inv;
    TerminalIsSuccessor(s', |s.turns|);
  }

  lemma OpenUnended(s: Store, t: nat)
    requires Inv(s) && Open(s, t)
    ensures TerminalFor(s.events, t).None?
  {
    hide Inv;
    TerminalIsSuccessor(s, t);
  }

  // The Turn directory appears at once, with its input, Before Facts and Runtime.
  method ClaimTail(d: RunDirectory, role: RoleId, executor: Executor, onTime: bool) returns (t: nat)
    requires d.Valid() && Claimable(d.State(), role, executor)
    modifies d
    ensures d.Valid() && old(d.history) <= d.history
    ensures d.State() == old(d.State()).(turns := d.turns) && t == |old(d.turns)| && |d.turns| == t + 1
    ensures Open(d.State(), t) && TerminalFor(d.events, t).None?
    ensures exists before: Option<Tree>, token :: before.Some? == onTime
              && d.turns[t].rt == BusinessRuntime(old(d.State()), role, executor, before, token)
  {
    hide Inv, ValidRuntime, TerminalFor, ClaimAllowed, Open;
    var facts: Tree, token: nat := *, *;
    var before := if onTime then Some(facts) else None;
    var rt := BusinessRuntime(d.State(), role, executor, before, token);
    BusinessClaimAllowed(d.State(), role, executor, before, token);
    FreshTurnUnended(d.State(), rt);
    d.Perform(Claim(rt));
    t := |d.turns| - 1;
    UnendedIsOpen(d.State(), t);
  }

  // A Worker continues an available Session of a role that resumes them, and
  // counts one up otherwise.
  predicate NextOrSame(policy: SessionPolicy, current: Option<Session>, generation: Option<nat>) {
    match current
    case None => generation == Some(1)
    case Some(c) =>
      && (generation == Some(c.generation) <==> policy.Resumable? && c.ref.Some?)
      && (generation != Some(c.generation) ==> generation == Some(c.generation + 1))
  }

  // create_business_turn_locked. The errors "journal points to a turn that
  // cannot be created" and "conflicting terminal event" are unreachable.
  method CreateBusinessTurn(d: RunDirectory, role: RoleId, executor: Executor) returns (r: Result<ClaimResult>)
    requires d.Valid()
    modifies d
    ensures d.Valid() && old(d.history) <= d.history
    ensures r.Err? ==> d.State() == old(d.State()) && role in d.team.roles
    ensures r.Err? ==> d.team.roles[role].binding != (if executor.ByWorker? then External else Origin)
    ensures r == Ok(NotClaimed) ==> d.State() == old(d.State())
    ensures r == Ok(NotClaimed) <==>
              || !ProjectedStatus(old(d.State())).RunningRun? || ProjectedOwner(old(d.State())) != Some(role)
              || ActiveTurns(old(d.turns)) != {} || Claims(old(d.turns), old(d.events)[|old(d.events)| - 1].id) != {}
    ensures r.Ok? && r.value.ClaimedTooLate? ==>
              && |d.turns| == |old(d.turns)| + 1 && d.turns[|old(d.turns)|].rt.phase.Finalized?
              && |d.events| > 0 && !BeforeDeadline(d.State(), d.clock)
              && d.events == old(d.events) + [d.events[|d.events| - 1]] && DeadlineBlock(d.events[|d.events| - 1])
              && Recorded(d.State(), |old(d.turns)|, d.events[|d.events| - 1])
    ensures r.Ok? && (r.value.Claimed? || r.value.Discontinuous?) ==>
              && r.value.t == |old(d.turns)| && |d.turns| == r.value.t + 1 && Open(d.State(), r.value.t)
              && d.turns[r.value.t].rt.role == Some(role) && d.turns[r.value.t].rt.executor == executor
              && d.turns[r.value.t].rt.business.Some? && d.turns[r.value.t].rt.before.Some?
              && d.turns[r.value.t].rt.phase.Starting? && d.turns[r.value.t].rt.nonce.None?
              && (r.value.Claimed? <==> Continuous(d.events, d.turns, d.turns[r.value.t].rt))
    ensures r.Ok? && (r.value.Claimed? || r.value.Discontinuous?) ==>
              && d.events == old(d.events) && |d.events| > 0 && BeforeDeadline(d.State(), d.clock)
              && d.turns[r.value.t].rt.input == d.events[|d.events| - 1].id
              && role in d.team.roles
              && (executor.ByWorker? ==> NextOrSame(d.team.roles[role].policy, Lookup(old(d.sessions), role),
                                                    d.turns[r.value.t].rt.generation))
  {
    hide Inv, ValidRuntime, TerminalFor, StepAccepted, Continuous;
    var s := d.State();
    if !ProjectedStatus(s).RunningRun? || ProjectedOwner(s) != Some(role) { return Ok(NotClaimed); }
    RunningTail(s, role);
    var tail := d.events[|d.events| - 1];
    OneActiveOneClaimant(s, tail.id);
    if Claims(d.turns, tail.id) != {} { return Ok(NotClaimed); }
    if ActiveTurns(d.turns) != {} { return Ok(NotClaimed); }
    if d.team.roles[role].binding != (if executor.ByWorker? then External else Origin) { return Err(NotAllowed); }
    RoomForClaim(s);
    r := ClaimNow(d, role, executor);
  }

  // The clock is read once; a Turn claimed behind the deadline is closed here.
  method ClaimNow(d: RunDirectory, role: RoleId, executor: Executor) returns (r: Result<ClaimResult>)
    requires d.Valid() && Claimable(d.State(), role, executor)
    modifies d
    ensures d.Valid() && old(d.history) <= d.history && |d.events| > 0 && r.Ok? && !r.value.NotClaimed?
    ensures |d.turns| == |old(d.turns)| + 1
    ensures r.value.ClaimedTooLate? ==>
              && d.turns[|old(d.turns)|].rt.phase.Finalized? && !BeforeDeadline(d.State(), d.clock)
              && d.events == old(d.events) + [d.events[|d.events| - 1]] && DeadlineBlock(d.events[|d.events| - 1])
              && Recorded(d.State(), |old(d.turns)|, d.events[|d.events| - 1])
    ensures !r.value.ClaimedTooLate? ==>
              && r.value.t == |old(d.turns)| && Open(d.State(), r.value.t)
              && d.events == old(d.events) && BeforeDeadline(d.State(), d.clock)
              && (r.value.Claimed? <==> Continuous(d.events, d.turns, d.turns[r.value.t].rt))
              && exists before: Tree, token: nat ::
                   d.turns[r.value.t].rt == BusinessRuntime(old(d.State()), role, executor, Some(before), token)
  {
    hide Inv, ValidRuntime, TerminalFor, StepAccepted, Continuous, BusinessRuntime, Open;
    var now := d.Now();
    var onTime := BeforeDeadline(d.State(), now);
    ghost var s1 := d.State();
    var t := ClaimTail(d, role, executor, onTime);
    ghost var before: Option<Tree>, token: nat :| before.Some? == onTime && d.turns[t].rt == BusinessRuntime(s1, role, executor, before, token);
    ClaimedShape(old(d.State()), s1, role, executor, before, token);
    if !onTime {
      var closed := FinalizeDeadlineBeforeClaim(d, t);
      assert closed.Ok?;
      return Ok(ClaimedTooLate);
    }
    if ContinuityHolds(d.State(), t) {
      ContinuityMeans(d.State(), t);
      return Ok(Claimed(t));
    }
    ContinuityBroken(d.State(), t);
    return Ok(Discontinuous(t));
  }

  lemma ClaimedShape(s: Store, y: Store, role: RoleId, executor: Executor, before: Option<Tree>, token: nat)
    requires Inv(s) && |s.events| > 0 && role in s.team.roles && y == s.(clock := y.clock)
    ensures BusinessRuntime(y, role, executor, before, token) == BusinessRuntime(s, role, executor, before, token)
    ensures
      var rt := BusinessRuntime(s, role, executor, before, token);
      rt.input.n == |s.events| && (before.None? ==> DeadlinePending(rt))
  {
    hide Inv;
    NamedAt(s, |s.events| - 1);
  }

  lemma ContinuityBroken(s: Store, t: nat)
    requires t < |s.turns| && s.turns[t].rt.input.n == |s.events| && |s.events| > 0 && !ContinuityHolds(s, t)
    ensures !Continuous(s.events, s.turns, s.turns[t].rt)
  {
  }

  // create_management_turn_locked, for the Block at the tail.
  method CreateManagementTurn(d: RunDirectory) returns (r: Result<nat>)
    requires d.Valid() && |d.events| > 0 && d.events[|d.events| - 1].body.Block?
    modifies d
    ensures d.Valid() && old(d.history) <= d.history
    ensures d.events == old(d.events)
    ensures r.Ok? ==> r.value < |d.turns| && Claims(d.turns, d.events[|d.events| - 1].id) == {r.value}
    ensures r.Ok? && Claims(old(d.turns), d.events[|d.events| - 1].id) == {} ==>
              r.value == |old(d.turns)| && d.turns[r.value].rt.phase.Running? && d.turns[r.value].rt.business.None?
    ensures r.Err? ==> d.State() == old(d.State()) && ActiveTurns(d.turns) != {}
  {
    hide Inv, ValidRuntime, ClaimAllowed;
    var tail := d.events[|d.events| - 1];
    OneActiveOneClaimant(d.State(), tail.id);
    var claims := Claims(d.turns, tail.id);
    if t :| t in claims {
      OnlyMember(claims, t);
      return Ok(t);
    }
    if ActiveTurns(d.turns) != {} { return Err(NotAllowed); }
    var token: nat := *;
    ManagementClaimAllowed(d.State(), token);
    ghost var before := d.turns;
    d.Perform(Claim(ManagementRuntime(d.State(), token)));
    assert Claims(d.turns, tail.id) == {|before|} by {
      forall t | 0 <= t < |before| ensures t !in Claims(d.turns, tail.id) { assert t !in Claims(before, tail.id); }
    }
    return Ok(|d.turns| - 1);
  }

  lemma OnlyMember(claims: set<nat>, t: nat)
    requires t in claims && |claims| <= 1
    ensures claims == {t}
  {
    forall u | u in claims ensures u == t {
      if u != t { assert {t, u} <= claims; Subset({t, u}, claims); }
    }
  }

  lemma Subset(a: set<nat>, b: set<nat>)
    requires a <= b
    ensures |a| <= |b|
  {
    assert b == a + (b - a);
  }
}
