/** Turns the Origin session executes itself: claim, action, Resume, acknowledgement. */
module Origin {
  import opened Model
  import opened Options
  import opened Journal
  import opened Turns
  import opened Replay
  import opened Invariant
  import opened Sessions
  import opened Machine
  import opened Endings
  import opened Guards
  import opened FinalSaves
  import opened Directory
  import opened TurnClaims
  import opened Delivery
  import C = CommitProof
  import F = Finalize
  import L = Later
  import Scan
  import Safety

  // ---- ending an Origin Turn

  function OriginEnd(rt: Runtime, e: Event, phase: Phase, outcome: Outcome): Runtime {
    rt.(phase := phase, outcome := Some(outcome), terminal := Some(e.id))
  }

  // Whatever outcome an Origin branch records for the event that ended its
  // Turn, the directory scans exactly when the outcome table agrees.
  lemma OriginEndScans(s: Store, t: nat, e: Event, phase: Phase, outcome: Outcome)
    requires Inv(s) && t < |s.turns| && s.turns[t].rt.executor.ByOrigin? && TerminalFor(s.events, t) == Some(e) && Ended(phase)
    requires ValidRuntime(s.team, OriginEnd(s.turns[t].rt, e, phase, outcome))
    requires SaveAllowed(s.turns[t].rt, OriginEnd(s.turns[t].rt, e, phase, outcome))
    ensures outcome == OutcomeOf(e.body) ==> SaveAllowedNow(s, t, OriginEnd(s.turns[t].rt, e, phase, outcome))
    ensures Scan.ScanVerdict(Apply(s, Save(t, OriginEnd(s.turns[t].rt, e, phase, outcome)))).Ok? <==> outcome == OutcomeOf(e.body)
  {
    hide Inv, ValidRuntime, SaveAllowed, SaveAllowedNow, TerminalFor, Scan.ScanVerdict, CursorAt, Apply;
    var rt := OriginEnd(s.turns[t].rt, e, phase, outcome);
    if outcome == OutcomeOf(e.body) {
      OriginSaveAllowed(s, t, rt, e);
      Safety.WriteKeepsInv(s, Save(t, rt));
      Scan.InvScans(Apply(s, Save(t, rt)));
    } else {
      WrongEndRefused(s, t, e, phase, outcome);
    }
  }

  lemma WrongEndRefused(s: Store, t: nat, e: Event, phase: Phase, outcome: Outcome)
    requires Inv(s) && t < |s.turns| && TerminalFor(s.events, t) == Some(e) && outcome != OutcomeOf(e.body)
    ensures Scan.ScanVerdict(Apply(s, Save(t, OriginEnd(s.turns[t].rt, e, phase, outcome)))).Err?
  {
    hide Inv, TerminalFor, Linked, Scan.ScanVerdict;
    EndingKind(s, t, e);
    F.WrongOutcomeUnlinked(s.events, OriginEnd(s.turns[t].rt, e, phase, outcome), e);
    Scan.UnlinkedRefused(Apply(s, Save(t, OriginEnd(s.turns[t].rt, e, phase, outcome))), t);
  }

  // An Origin Turn in the hands of the host: claimed, and not pending a deadline.
  predicate HeldByOrigin(rt: Runtime) {
    rt.executor.ByOrigin? && (rt.business.None? || rt.before.Some?)
  }

  lemma OriginEndSaves(s: Store, t: nat, e: Event, phase: Phase, outcome: Outcome)
    requires Inv(s) && t < |s.turns| && HeldByOrigin(s.turns[t].rt) && TerminalFor(s.events, t) == Some(e)
    requires !Ended(s.turns[t].rt.phase) && (phase.Exited? || phase.Finalized?)
    ensures ValidRuntime(s.team, OriginEnd(s.turns[t].rt, e, phase, outcome))
    ensures SaveAllowed(s.turns[t].rt, OriginEnd(s.turns[t].rt, e, phase, outcome))
  {
    hide Inv, TerminalFor;
    TurnNamed(s, t);
    EndingKind(s, t, e);
    NamedAt(s, e.id.n - 1);
  }

  method EndOrigin(d: RunDirectory, t: nat, e: Event, phase: Phase, outcome: Outcome) returns (saved: bool)
    requires d.Valid() && t < |d.turns| && d.turns[t].rt.executor.ByOrigin? && TerminalFor(d.events, t) == Some(e)
    requires phase.Exited? || phase.Finalized?
    modifies d
    ensures old(d.history) <= d.history && d.events == old(d.events) && |d.turns| == |old(d.turns)|
    ensures d.State() == old(d.State()).(turns := d.turns)
    ensures saved ==> d.turns == old(d.turns)[t := old(d.turns)[t].(rt := OriginEnd(old(d.turns)[t].rt, e, phase, outcome))]
    ensures !saved ==> d.State() == old(d.State())
    ensures saved <==> (&& ValidRuntime(d.team, OriginEnd(old(d.turns)[t].rt, e, phase, outcome))
                        && SaveAllowed(old(d.turns)[t].rt, OriginEnd(old(d.turns)[t].rt, e, phase, outcome)))
    ensures d.Valid() <==> Scan.ScanVerdict(d.State()).Ok?
    ensures d.Valid() <==> !saved || outcome == OutcomeOf(e.body)
    ensures HeldByOrigin(old(d.turns)[t].rt) && !Ended(old(d.turns)[t].rt.phase) ==> saved
  {
    hide Inv, ValidRuntime, SaveAllowed, SaveAllowedNow, TerminalFor, Scan.ScanVerdict, HeldByOrigin;
    Scan.InvScans(d.State());
    var rt := OriginEnd(d.turns[t].rt, e, phase, outcome);
    if HeldByOrigin(d.turns[t].rt) && !Ended(d.turns[t].rt.phase) { OriginEndSaves(d.State(), t, e, phase, outcome); }
    if ValidRuntime(d.team, rt) && SaveAllowed(d.turns[t].rt, rt) { OriginEndScans(d.State(), t, e, phase, outcome); }
    saved := d.SaveRuntime(t, rt);
    if d.Valid() { Scan.InvScans(d.State()); }
  }

  // _reconcile_origin_terminal_locked: an acknowledged Turn is closed with the
  // outcome its event announces, wherever the crash was.
  method Reconcile(d: RunDirectory, t: nat) returns (r: Result<bool>)
    requires d.Valid() && t < |d.turns| && HeldByOrigin(d.turns[t].rt)
    modifies d
    ensures d.Valid() && old(d.history) <= d.history && d.events == old(d.events)
    ensures r == Ok(true) ==> t < |d.turns| && d.turns[t].rt.phase.Finalized? && TerminalFor(d.events, t).Some?
                              && Recorded(d.State(), t, TerminalFor(d.events, t).value)
    ensures r == Ok(false) <==> TerminalFor(d.events, t).None?
    ensures r == Ok(false) ==> d.State() == old(d.State())
    ensures r.Err? ==> d.turns == old(d.turns) && (d.turns[t].rt.phase.Starting? || d.turns[t].rt.phase.RecoveryRequired?)
  {
    hide Inv, TerminalFor, ValidRuntime, SaveAllowed;
    var terminal := TerminalFor(d.events, t);
    if terminal.None? { return Ok(false); }
    var phase := d.turns[t].rt.phase;
    if phase.Starting? || phase.RecoveryRequired? { return Err(BadLink); }
    EndedIsRecorded(d.State(), t, terminal.value);
    if !phase.Finalized? {
      if phase.Exited? { ExitedSaves(d.State(), t, terminal.value); }
      var saved := EndOrigin(d, t, terminal.value, Finalized, OutcomeOf(terminal.value.body));
      assert saved;
    }
    return Ok(true);
  }

  lemma EndedIsRecorded(s: Store, t: nat, e: Event)
    requires Inv(s) && t < |s.turns| && TerminalFor(s.events, t) == Some(e)
    ensures Ended(s.turns[t].rt.phase) ==> Recorded(s, t, e)
  {
    hide ProcInv, PolicyInv, SessionInv, CountInv, Accepted;
    assert ValidRuntime(s.team, s.turns[t].rt) && Linked(s.events, s.turns[t].rt);
    if Ended(s.turns[t].rt.phase) {
      FinalizedHasTerminal(s, t);
      EndingKind(s, t, e);
    }
  }

  lemma ExitedSaves(s: Store, t: nat, e: Event)
    requires Inv(s) && t < |s.turns| && HeldByOrigin(s.turns[t].rt) && TerminalFor(s.events, t) == Some(e)
    requires s.turns[t].rt.phase.Exited? && Recorded(s, t, e)
    ensures ValidRuntime(s.team, OriginEnd(s.turns[t].rt, e, Finalized, OutcomeOf(e.body)))
    ensures SaveAllowed(s.turns[t].rt, OriginEnd(s.turns[t].rt, e, Finalized, OutcomeOf(e.body)))
  {
    hide Inv, TerminalFor;
    TurnNamed(s, t);
  }

  // ---- Origin claims

  // The host receives the Turn: phase Running.
  method BeginOrigin(d: RunDirectory, t: nat)
    requires d.Valid() && Open(d.State(), t) && d.turns[t].rt.executor.ByOrigin? && d.turns[t].rt.before.Some?
    requires d.turns[t].rt.phase.Starting? && d.turns[t].rt.business.Some?
    requires Continuous(d.events, d.turns, d.turns[t].rt)
    modifies d
    ensures d.Valid() && old(d.history) <= d.history
    ensures d.State() == old(d.State()).(turns := old(d.turns)[t := old(d.turns)[t].(rt := old(d.turns)[t].rt.(phase := Running))])
  {
    hide Inv, ValidRuntime, SaveAllowed, SaveAllowedNow, Continuous;
    BeginAllowed(d.State(), t);
    var saved := d.SaveRuntime(t, d.turns[t].rt.(phase := Running));
  }

  lemma BeginAllowed(s: Store, t: nat)
    requires Inv(s) && Open(s, t) && s.turns[t].rt.executor.ByOrigin? && s.turns[t].rt.before.Some?
    requires s.turns[t].rt.phase.Starting? && s.turns[t].rt.business.Some? && Continuous(s.events, s.turns, s.turns[t].rt)
    ensures ValidRuntime(s.team, s.turns[t].rt.(phase := Running))
    ensures SaveAllowed(s.turns[t].rt, s.turns[t].rt.(phase := Running))
    ensures SaveAllowedNow(s, t, s.turns[t].rt.(phase := Running))
  {
    hide Inv, Linked, EndedBy;
    var rt := s.turns[t].rt.(phase := Running);
    TurnNamed(s, t);
    OpenHasNoEnding(s, t);
    OpenLinks(s, t, rt);
    OriginEvidence(s, t, rt);
  }

  // The claim branch of wait_origin for the running Origin role. A Turn whose
  // workspace was not left as the sender froze it ends without starting.
  method ClaimOriginTurn(d: RunDirectory, role: RoleId) returns (r: Result<ClaimResult>)
    requires d.Valid() && role in d.team.roles && d.team.roles[role].binding.Origin?
    modifies d
    ensures d.Valid() && old(d.history) <= d.history
    ensures r.Ok? && r.value.Claimed? ==>
              && r.value.t == |old(d.turns)| < |d.turns| && d.turns[r.value.t].rt.phase.Running?
              && d.turns[r.value.t].rt.role == Some(role) && HeldByOrigin(d.turns[r.value.t].rt)
              && Continuous(d.events, d.turns, d.turns[r.value.t].rt)
    ensures r.Ok? && r.value.Discontinuous? ==>
              && r.value.t == |old(d.turns)| < |d.turns| && d.turns[r.value.t].rt.phase.Finalized?
              && TerminalFor(d.events, r.value.t).Some? && Recorded(d.State(), r.value.t, TerminalFor(d.events, r.value.t).value)
              && TerminalFor(d.events, r.value.t).value.body == Block(Recovery, None)
    ensures r.Err? ==> |d.events| > 0 && Stamp(d.clock) >= DeadlineAt(d.State())
  {
    hide Inv, Continuous, TerminalFor, BlockTimely;
    r := CreateBusinessTurn(d, role, ByOrigin);
    if r.Ok? && r.value.Claimed? {
      ghost var s0 := d.State();
      BeginOrigin(d, r.value.t);
      L.SameFacts(s0, d.State(), r.value.t);
    } else if r.Ok? && r.value.Discontinuous? {
      var t := r.value.t;
      OpenUnended(d.State(), t);
      var e := BlockNow(d, t, Recovery, None);
      TimelyBeforeDeadline(d.team, d.turns[t].rt, Recovery, Stamp(d.clock), DeadlineAt(d.State()));
      if e.Err? { return Err(e.why); }
      var saved := EndOrigin(d, t, e.value, Finalized, Outcome.Failed);
    }
  }

  // ---- Origin actions

  // The outcome origin_action derives from the event its guard returned.
  function GuardOutcome(e: Event): Outcome {
    if e.body.Block? && e.body.limit == Some(LimitReason.Deadline) then Cancelled
    else if e.body.Block? && e.body.limit == Some(MaxTurns) then Stalled
    else Outcome.Failed
  }

  lemma GuardOutcomeFits(e: Event)
    requires GuardBlock(e)
    ensures GuardOutcome(e) == OutcomeOf(e.body)
  {
  }

  // What the host's files and the adapter answer during one action; `workspace`
  // is what a capture finds.
  datatype HostChecks = HostChecks(first: bool, second: bool, payloadReadable: bool, factsReadable: bool,
                                   captures: bool, workspace: Tree, beforeReadable: bool)

  datatype OriginFacts = OriginFrozen | OriginRecovery | OriginDamaged

  // The After Facts can be frozen now, or were and still describe the workspace.
  predicate HostFactsHold(turn: Turn, c: HostChecks) {
    && c.captures && c.beforeReadable && turn.rt.before.Some?
    && (if turn.afterFile.Some? then c.factsReadable && turn.rt.after == turn.afterFile == Some(c.workspace)
        else turn.rt.after.None?)
  }

  // _freeze_origin_after: freeze the After Facts, or recheck the frozen ones.
  method FreezeOriginAfter(d: RunDirectory, t: nat, c: HostChecks) returns (r: OriginFacts)
    requires d.Valid() && t < |d.turns| && HeldByOrigin(d.turns[t].rt) && d.turns[t].rt.phase.Running?
    requires d.turns[t].rt.business.Some?
    modifies d
    ensures d.Valid() && old(d.history) <= d.history
    ensures DeliveryFrame(old(d.State()), d.State(), t) && d.events == old(d.events) && d.clock == old(d.clock)
    ensures r.OriginFrozen? <==> HostFactsHold(old(d.turns)[t], c)
    ensures r.OriginFrozen? ==> d.turns[t].rt.after == d.turns[t].afterFile == Some(c.workspace)
    ensures old(d.turns)[t].afterFile.Some? ==> d.turns[t].afterFile == old(d.turns)[t].afterFile
  {
    hide Inv, ValidRuntime, SaveAllowed, SaveAllowedNow;
    var turn := d.turns[t];
    var recovery := false;
    if turn.afterFile.Some? {
      if !c.factsReadable { return OriginDamaged; }
      if turn.rt.after.None? {
        OriginAfterAllowed(d.State(), t, turn.afterFile.value);
        var saved := d.SaveRuntime(t, turn.rt.(after := turn.afterFile));
        recovery := true;
      } else if turn.rt.after != turn.afterFile {
        return OriginDamaged;
      }
      if !c.captures { return OriginDamaged; }
      if turn.afterFile != Some(c.workspace) { recovery := true; }
    } else {
      if !c.captures || turn.rt.after.Some? { return OriginDamaged; }
      d.Perform(PutAfter(t, c.workspace));
      OriginAfterAllowed(d.State(), t, c.workspace);
      var saved := d.SaveRuntime(t, turn.rt.(after := Some(c.workspace)));
    }
    if !c.beforeReadable || turn.rt.before.None? { return OriginDamaged; }
    return if recovery then OriginRecovery else OriginFrozen;
  }

  lemma OriginAfterAllowed(s: Store, t: nat, tree: Tree)
    requires Inv(s) && t < |s.turns| && HeldByOrigin(s.turns[t].rt) && s.turns[t].rt.phase.Running?
    requires s.turns[t].rt.business.Some? && s.turns[t].rt.after.None?
    ensures ValidRuntime(s.team, s.turns[t].rt.(after := Some(tree)))
    ensures SaveAllowed(s.turns[t].rt, s.turns[t].rt.(after := Some(tree)))
    ensures SaveAllowedNow(s, t, s.turns[t].rt.(after := Some(tree)))
  {
    hide Inv, Linked, EndedBy;
    var rt := s.turns[t].rt.(after := Some(tree));
    TurnNamed(s, t);
    OpenLinks(s, t, rt);
    OriginEvidence(s, t, rt);
  }

  // ---- a retried action

  // An event that ended a Turn which is not finalized yet is the last event,
  // unless a Cancel followed before anyone claimed it.
  lemma LastEnding(s: Store, t: nat, e: Event)
    requires Inv(s) && t < |s.turns| && !s.turns[t].rt.phase.Finalized? && TerminalFor(s.events, t) == Some(e)
    requires ProjectedStatus(s).RunningRun?
    ensures s.events[|s.events| - 1] == e && StatusAfter(e).RunningRun? && ProjectedOwner(s) == e.to
  {
    hide Inv, TerminalFor;
    TerminalIsSuccessor(s, t);
    var n := s.turns[t].rt.input.n;
    if n + 1 < |s.events| {
      EveryEventEndsATurn(s, n + 1);
      NoLaterClaim(s, t, n + 1);
      CancelEndsRun(s, n + 1);
    }
  }

  lemma NoLaterClaim(s: Store, t: nat, k: nat)
    requires Inv(s) && t < |s.turns| && !s.turns[t].rt.phase.Finalized? && s.turns[t].rt.input.n < k < |s.events|
    ensures s.events[k].turn.None?
  {
    hide Inv;
    StepFactsAt(s, k);
    NamedAt(s, k - 1);
    if s.events[k].turn.Some? { LastTurnInput(s, t, s.events[k].turn.value); }
  }

  lemma LastTurnInput(s: Store, t: nat, u: nat)
    requires Inv(s) && t < |s.turns| && !s.turns[t].rt.phase.Finalized? && u < |s.turns|
    ensures s.turns[u].rt.input.n <= s.turns[t].rt.input.n
  {
    hide ProcInv, PolicyInv, SessionInv, CountInv, Accepted, ValidRuntime, Linked;
  }

  lemma CancelEndsRun(s: Store, k: nat)
    requires Inv(s) && k < |s.events| && s.events[k].body.Cancel?
    ensures k == |s.events| - 1 && ProjectedStatus(s).CancelledRun?
  {
    hide ProcInv, PolicyInv, SessionInv, CountInv, TurnsValid, AllLinked, StepAccepted;
    C.CancelIsLast(s.team, s.events, s.turns, k);
  }

  // The outcome the action guard records is right exactly for limit Blocks and
  // for failures; a Handoff is neither.
  lemma GuardOutcomeRight(s: Store, t: nat, e: Event)
    requires Inv(s) && t < |s.turns| && s.turns[t].rt.business.Some? && TerminalFor(s.events, t) == Some(e)
    ensures GuardOutcome(e) == OutcomeOf(e.body) <==>
              (e.body.Block? && e.body.reason.Limit?) || OutcomeOf(e.body).Failed?
  {
    hide Inv, TerminalFor;
    EndingKind(s, t, e);
    if e.body.Block? { LimitsAreNamed(s, e.id.n - 1); }
    if e.body.Block? && e.body.limit.Some? { match e.body.limit.value { case Deadline => case MaxTurns => } }
  }

  // A limit reason is stored with every limit Block, and with no other event.
  lemma LimitsAreNamed(s: Store, k: nat)
    requires Inv(s) && k < |s.events| && s.events[k].body.Block?
    ensures s.events[k].body.reason.Limit? <==> s.events[k].body.limit.Some?
  {
    hide ProcInv, PolicyInv, SessionInv, CountInv, TurnsValid, AllLinked;
    assert StepAccepted(s.team, s.events, s.turns, k);
  }

  method OriginFailed(d: RunDirectory, t: nat, reason: BlockReason) returns (r: Result<Event>)
    requires d.Valid() && t < |d.turns| && HeldByOrigin(d.turns[t].rt) && d.turns[t].rt.business.Some?
    requires d.turns[t].rt.phase.Running? && (reason.Recovery? || reason.Permission?)
    modifies d
    ensures old(d.history) <= d.history && |d.turns| == |old(d.turns)|
    ensures d.Valid() <==> Scan.ScanVerdict(d.State()).Ok?
    ensures r.Err? || TerminalFor(old(d.events), t).None? ==> d.Valid()
    ensures r.Ok? ==> TerminalFor(d.events, t) == Some(r.value) && (d.Valid() <==> OutcomeOf(r.value.body).Failed?)
    ensures r.Ok? && d.Valid() ==> Recorded(d.State(), t, r.value)
    ensures TerminalFor(old(d.events), t).Some? && r.Ok? ==> TerminalFor(old(d.events), t) == Some(r.value)
    ensures TerminalFor(old(d.events), t).None? && r.Ok? ==>
              && r.value.body == Block(reason, None) && d.events == old(d.events) + [r.value] && d.turns[t].rt.phase.Exited?
    ensures r.Err? ==> d.events == old(d.events) && |d.events| > 0 && Stamp(d.clock) >= DeadlineAt(d.State())
  {
    hide Inv, TerminalFor, BlockTimely, Scan.ScanVerdict, ValidRuntime, SaveAllowed;
    var e := BlockNow(d, t, reason, None);
    TimelyBeforeDeadline(d.team, d.turns[t].rt, reason, Stamp(d.clock), DeadlineAt(d.State()));
    Scan.InvScans(d.State());
    if e.Err? { return Err(e.why); }
    var saved := EndOrigin(d, t, e.value, Exited, Outcome.Failed);
    return Ok(e.value);
  }

  method OriginGuarded(d: RunDirectory, t: nat, e: Event) returns (r: Result<Event>)
    requires d.Valid() && t < |d.turns| && HeldByOrigin(d.turns[t].rt) && d.turns[t].rt.phase.Running?
    requires TerminalFor(d.events, t) == Some(e)
    modifies d
    ensures old(d.history) <= d.history && |d.turns| == |old(d.turns)|
    ensures d.State() == old(d.State()).(turns := d.turns) && d.turns[t].rt.phase.Exited?
    ensures d.Valid() <==> Scan.ScanVerdict(d.State()).Ok?
    ensures d.Valid() <==> GuardOutcome(e) == OutcomeOf(e.body)
    ensures r == Ok(e) && (d.Valid() ==> Recorded(d.State(), t, e))
  {
    hide Inv, TerminalFor, Scan.ScanVerdict, ValidRuntime, SaveAllowed, GuardOutcome;
    var saved := EndOrigin(d, t, e, Exited, GuardOutcome(e));
    return Ok(e);
  }

  // Why a technical Block stands in for the action of an Origin role.
  predicate HostStandsIn(s: Store, x: Store, t: nat, from: RoleId, action: Action, c: HostChecks, e: Event)
    requires t < |s.turns| && |x.events| > 0
  {
    && e.body.Block? && (e.body.limit.Some? ==> e.body.reason.Limit?)
    && (match e.body.reason
        case Limit =>
          || (e.body.limit == Some(LimitReason.Deadline) && !BeforeDeadline(x, x.clock))
          || (e.body.limit == Some(MaxTurns) && action.ToRole? && BusinessCount(s.turns, |s.turns|) >= s.team.maxTurns)
        case ProfileChanged => Hires(s.team, action) && !(c.first && c.second)
        case Recovery => !HostFactsHold(s.turns[t], c)
        case Permission =>
          HostFactsHold(s.turns[t], c) && from in s.team.readOnly && s.turns[t].rt.before != Some(c.workspace)
        case _ => false)
  }

  // The action hands the token to a role that a Worker executes.
  predicate Hires(team: Team, action: Action) {
    action.ToRole? && action.target in team.roles && team.roles[action.target].binding.External?
  }

  // Nothing stood in the way of the action.
  predicate HostUnobstructed(s: Store, x: Store, t: nat, from: RoleId, action: Action, c: HostChecks)
    requires t < |s.turns| && |x.events| > 0
  {
    && BeforeDeadline(x, x.clock)
    && (action.ToRole? ==> BusinessCount(s.turns, |s.turns|) < s.team.maxTurns)
    && (Hires(s.team, action) ==> c.first && c.second)
    && HostFactsHold(s.turns[t], c)
    && (from in s.team.readOnly ==> s.turns[t].rt.before == Some(c.workspace))
  }

  // How an action of an unended Origin Turn ends it: one event, which is the
  // action unless something stood in its way.
  predicate Acted(s: Store, x: Store, t: nat, from: RoleId, action: Action, c: HostChecks, e: Event)
    requires t < |s.turns|
  {
    && x.events == s.events + [e] && t < |x.turns|
    && (if Technical(e) then HostStandsIn(s, x, t, from, action, c, e)
        else ActionDone(x, action, e) && HostUnobstructed(s, x, t, from, action, c))
    && (x.turns[t].rt.phase.Finalized? <==> e.body.Handoff?)
  }

  function ActionBody(action: Action): Body {
    match action
    case ToRole(_) => Handoff(Selected)
    case ToComplete => Complete
    case ToBlock => Block(Agent, None)
  }

  function ActionTarget(action: Action): Option<RoleId> {
    if action.ToRole? then Some(action.target) else None
  }

  // A Turn that an event has ended cannot be ended again.
  lemma SpentRefused(s: Store, t: nat, body: Body, from: Option<RoleId>, to: Option<RoleId>, at: int)
    requires Inv(s) && t < |s.turns| && s.turns[t].rt.business.Some? && TerminalFor(s.events, t).Some?
    requires Formal(body)
    ensures Verdict(s, NextEvent(s.events, body, from, to, Some(t), at)).Err?
  {
    hide Inv, TerminalFor;
    var e := TerminalFor(s.events, t).value;
    EndingKind(s, t, e);
    assert EndsTurn(e);
    assert t in TerminalsIn(s.events, |s.events|);
  }

  lemma ClaimedIsHeld(s: Store, t: nat)
    requires Inv(s) && t < |s.turns| && s.turns[t].rt.executor.ByOrigin? && s.turns[t].rt.claim.Some? && s.turns[t].rt.role.Some?
    requires s.turns[t].rt.phase.Running?
    ensures HeldByOrigin(s.turns[t].rt) && s.turns[t].rt.business.Some?
  {
    hide Inv;
    TurnNamed(s, t);
  }

  lemma RetryIsHandoff(s: Store, t: nat, from: RoleId)
    requires Inv(s) && t < |s.turns| && s.turns[t].rt.business.Some? && !s.turns[t].rt.phase.Finalized?
    requires ProjectedStatus(s).RunningRun? && ProjectedOwner(s) == Some(from)
    ensures TerminalFor(s.events, t).Some? ==>
              TerminalFor(s.events, t).value.body.Handoff? && TerminalFor(s.events, t).value.to == Some(from)
  {
    hide Inv, TerminalFor, ProjectedStatus, ProjectedOwner;
    if TerminalFor(s.events, t).Some? {
      var e := TerminalFor(s.events, t).value;
      LastEnding(s, t, e);
      EndingKind(s, t, e);
    }
  }

  lemma ActionPolicy(s: Store, t: nat, from: RoleId, action: Action, at: int)
    requires t < |s.turns|
    requires action.ToRole? ==> s.team.AllowsHandoff(from, action.target)
    requires from in s.team.readOnly ==> s.turns[t].rt.before.Some? && s.turns[t].rt.before == s.turns[t].rt.after
    ensures EventPolicy(s.team, NextEvent(s.events, ActionBody(action), Some(from), ActionTarget(action), Some(t), at), s.turns, s.dead)
  {
  }

  // After Facts are no part of how many business Turns there are.
  lemma {:induction false} SameNumbers(a: seq<Turn>, b: seq<Turn>, n: nat)
    requires |a| == |b| && n <= |a|
    requires forall u | 0 <= u < n :: a[u].rt.business == b[u].rt.business
    ensures BusinessCount(a, n) == BusinessCount(b, n)
  {
    if n > 0 { SameNumbers(a, b, n - 1); }
  }

  // What a guard of an action has stopped with, once its Runtime is saved.
  lemma StoppedAction(s: Store, y: Store, x: Store, t: nat, from: RoleId, action: Action, c: HostChecks, second: bool, e: Event)
    requires t < |s.turns| && |s.events| > 0 && y.team == s.team && DeliveryFrame(s.(clock := y.clock, events := y.events), y, t)
    requires y.events == s.events + [e] && x == y.(turns := x.turns) && |x.turns| == |s.turns| && x.turns[t].rt.phase.Exited?
    requires Stopped(y, action.ToRole?, Hires(s.team, action), if second then c.second else c.first, e)
    ensures Acted(s, x, t, from, action, c, e)
  {
    SameNumbers(s.turns, y.turns, |s.turns|);
  }

  lemma FailedAction(s: Store, x: Store, t: nat, from: RoleId, action: Action, c: HostChecks, reason: BlockReason, e: Event)
    requires t < |s.turns| && t < |x.turns| && x.events == s.events + [e] && x.turns[t].rt.phase.Exited?
    requires e.body == Block(reason, None)
    requires (reason.Recovery? && !HostFactsHold(s.turns[t], c))
             || (reason.Permission? && HostFactsHold(s.turns[t], c) && from in s.team.readOnly
                 && s.turns[t].rt.before != Some(c.workspace))
    ensures Acted(s, x, t, from, action, c, e)
  {
    hide HostFactsHold;
  }

  // The part of origin_action after its first guard.
  method CommitOriginAction(d: RunDirectory, t: nat, from: RoleId, action: Action, c: HostChecks) returns (r: Result<Event>)
    requires d.Valid() && t < |d.turns| && HeldByOrigin(d.turns[t].rt) && d.turns[t].rt.business.Some?
    requires d.turns[t].rt.phase.Running? && d.turns[t].rt.role == Some(from)
    requires action.ToRole? ==> action.target in d.team.roles && d.team.AllowsHandoff(from, action.target)
    requires Hires(d.team, action) ==> c.first
    requires |d.events| > 0
    modifies d
    ensures old(d.history) <= d.history && |d.turns| == |old(d.turns)|
    ensures d.Valid() <==> Scan.ScanVerdict(d.State()).Ok?
    ensures TerminalFor(old(d.events), t).None? ==> d.Valid()
    ensures r.Ok? && d.Valid() ==> Recorded(d.State(), t, r.value)
    ensures r.Ok? && TerminalFor(old(d.events), t).None? ==> Acted(old(d.State()), d.State(), t, from, action, c, r.value)
    ensures r.Err? && TerminalFor(old(d.events), t).None? ==>
              d.events == old(d.events) && |d.events| > 0 && Stamp(d.clock) >= DeadlineAt(d.State())
  {
    hide Inv, TerminalFor, Scan.ScanVerdict, GuardOutcome, Timely, EventPolicy, Verdict, TailId, ValidRuntime, SaveAllowed;
    hide HostFactsHold, Acted, ActionDone;
    ghost var s0 := d.State();
    var frozen := FreezeOriginAfter(d, t, c);
    if !frozen.OriginFrozen? {
      r := OriginFailed(d, t, Recovery);
      if r.Ok? && TerminalFor(old(d.events), t).None? { FailedAction(s0, d.State(), t, from, action, c, Recovery, r.value); }
      return;
    }
    if from in d.team.readOnly && d.turns[t].rt.before != d.turns[t].rt.after {
      r := OriginFailed(d, t, Permission);
      if r.Ok? && TerminalFor(old(d.events), t).None? { FailedAction(s0, d.State(), t, from, action, c, Permission, r.value); }
      return;
    }
    r := GuardAndCommit(d, t, from, action, c, s0);
  }

  // The second guard, and the action if it passes. `s` is the store in which
  // the After Facts were frozen.
  method GuardAndCommit(d: RunDirectory, t: nat, from: RoleId, action: Action, c: HostChecks, ghost s: Store) returns (r: Result<Event>)
    requires d.Valid() && t < |d.turns| && HeldByOrigin(d.turns[t].rt) && d.turns[t].rt.business.Some?
    requires d.turns[t].rt.phase.Running? && d.turns[t].rt.role == Some(from)
    requires action.ToRole? ==> action.target in d.team.roles && d.team.AllowsHandoff(from, action.target)
    requires Hires(d.team, action) ==> c.first
    requires from in d.team.readOnly ==> d.turns[t].rt.before == d.turns[t].rt.after
    requires t < |s.turns| && |s.events| > 0 && DeliveryFrame(s, d.State(), t) && d.events == s.events
    requires HostFactsHold(s.turns[t], c) && d.turns[t].rt.after == Some(c.workspace)
    modifies d
    ensures old(d.history) <= d.history && |d.turns| == |old(d.turns)|
    ensures d.Valid() <==> Scan.ScanVerdict(d.State()).Ok?
    ensures TerminalFor(old(d.events), t).None? ==> d.Valid()
    ensures r.Ok? && d.Valid() ==> Recorded(d.State(), t, r.value)
    ensures r.Ok? && TerminalFor(old(d.events), t).None? ==> Acted(s, d.State(), t, from, action, c, r.value)
    ensures r.Err? && TerminalFor(old(d.events), t).None? ==>
              d.events == old(d.events) && |d.events| > 0 && Stamp(d.clock) >= DeadlineAt(d.State())
  {
    hide Inv, TerminalFor, Scan.ScanVerdict, GuardOutcome, Timely, Recorded, HeldByOrigin;
    hide HostFactsHold, Acted, ActionDone, Stopped;
    ghost var s0 := d.State();
    var guarded := GuardAction(d, t, action.ToRole?, Hires(d.team, action), c.second);
    Scan.InvScans(d.State());
    if guarded.Err? { return Err(guarded.why); }
    ghost var y := d.State();
    if guarded.value.Already? {
      if TerminalFor(old(d.events), t).None? { GuardOutcomeFits(guarded.value.e); }
      r := OriginGuarded(d, t, guarded.value.e);
      if TerminalFor(old(d.events), t).None? { StoppedAction(s, y, d.State(), t, from, action, c, true, guarded.value.e); }
      return;
    }
    r := CommitFormal(d, t, from, action, guarded.value.at);
    if r.Ok? { DoneAction(s, y, d.State(), t, from, action, c, guarded.value.at, r.value); }
  }

  lemma DoneAction(s: Store, y: Store, x: Store, t: nat, from: RoleId, action: Action, c: HostChecks, at: int, e: Event)
    requires t < |s.turns| && |s.events| > 0 && y.team == s.team && y.events == s.events && |y.turns| == |s.turns|
    requires DeliveryFrame(s, y, t) && Timely(y, action.ToRole?, at) && BeforeDeadline(y, y.clock)
    requires x == y.(events := y.events + [e], turns := x.turns) && |x.turns| == |s.turns|
    requires x.turns[t].rt.phase.Finalized? <==> e.body.Handoff?
    requires ActionDone(x, action, e)
    requires HostFactsHold(s.turns[t], c) && (from in s.team.readOnly ==> s.turns[t].rt.before == Some(c.workspace))
    requires Hires(s.team, action) ==> c.first && c.second
    ensures Acted(s, x, t, from, action, c, e)
  {
    hide HostFactsHold;
    SameNumbers(s.turns, y.turns, |s.turns|);
  }

  method CommitFormal(d: RunDirectory, t: nat, from: RoleId, action: Action, at: int) returns (r: Result<Event>)
    requires d.Valid() && t < |d.turns| && HeldByOrigin(d.turns[t].rt) && d.turns[t].rt.business.Some?
    requires d.turns[t].rt.phase.Running? && d.turns[t].rt.role == Some(from)
    requires action.ToRole? ==> action.target in d.team.roles && d.team.AllowsHandoff(from, action.target)
    requires from in d.team.readOnly ==> d.turns[t].rt.before == d.turns[t].rt.after
    requires Timely(d.State(), action.ToRole?, at)
    modifies d
    ensures d.Valid() && old(d.history) <= d.history && |d.turns| == |old(d.turns)|
    ensures Scan.ScanVerdict(d.State()).Ok?
    ensures r.Ok? <==> TerminalFor(old(d.events), t).None?
    ensures r.Ok? ==>
              && Recorded(d.State(), t, r.value) && ActionDone(d.State(), action, r.value)
              && d.State() == old(d.State()).(events := old(d.events) + [r.value], turns := d.turns)
              && (d.turns[t].rt.phase.Finalized? <==> r.value.body.Handoff?)
    ensures r.Err? ==> d.State() == old(d.State())
  {
    hide Inv, TerminalFor, Scan.ScanVerdict, EventPolicy, Verdict, TailId, ValidRuntime, SaveAllowed;
    ActionPolicy(d.State(), t, from, action, at);
    if TerminalFor(d.events, t).Some? {
      SpentRefused(d.State(), t, ActionBody(action), Some(from), ActionTarget(action), at);
    } else {
      DecisionAccepted(d.State(), t, ActionBody(action), ActionTarget(action), at);
    }
    ghost var before := d.events;
    r := d.CommitEvent(ActionBody(action), Some(from), ActionTarget(action), Some(t), at);
    if r.Ok? {
      TerminalAppended(before, t, r.value);
      var saved := EndOrigin(d, t, r.value, if action.ToRole? then Finalized else Exited, Success);
    }
    Scan.InvScans(d.State());
  }

  // What origin_action requires of its caller: the claim, the token and the edge.
  predicate MayAct(s: Store, t: nat, claim: nat, from: RoleId, action: Action)
    requires t < |s.turns|
  {
    && s.turns[t].rt.executor.ByOrigin? && s.turns[t].rt.claim == Some(claim) && s.turns[t].rt.role == Some(from)
    && s.turns[t].rt.phase.Running? && ProjectedStatus(s) == RunningRun && ProjectedOwner(s) == Some(from)
    && (action.ToRole? ==> action.target in s.team.roles && s.team.AllowsHandoff(from, action.target))
  }

  // origin_action. On a Turn no event has ended the directory always scans
  // afterwards. On a retry after a Handoff to the same role was committed but
  // not acknowledged, a branch may record "failed" for that Handoff.
  method OriginAction(d: RunDirectory, t: nat, claim: nat, from: RoleId, action: Action, c: HostChecks) returns (r: Result<Event>)
    requires d.Valid() && t < |d.turns|
    modifies d
    ensures old(d.history) <= d.history
    ensures d.Valid() <==> Scan.ScanVerdict(d.State()).Ok?
    ensures !d.Valid() ==>
              && TerminalFor(old(d.events), t).Some?
              && var e := TerminalFor(old(d.events), t).value; e.body.Handoff? && e.to == Some(from)
    ensures r.Ok? && d.Valid() ==> t < |d.turns| && Recorded(d.State(), t, r.value)
    ensures !MayAct(old(d.State()), t, claim, from, action) ==> r.Err? && d.State() == old(d.State())
    ensures TerminalFor(old(d.events), t).None? && MayAct(old(d.State()), t, claim, from, action) ==>
              if r.Ok? then Acted(old(d.State()), d.State(), t, from, action, c, r.value)
              else d.events == old(d.events) && |d.events| > 0 && (!c.payloadReadable || Stamp(d.clock) >= DeadlineAt(d.State()))
  {
    hide Inv, TerminalFor, Scan.ScanVerdict, HeldByOrigin, ProjectedStatus, ProjectedOwner, Acted, Recorded;
    Scan.InvScans(d.State());
    var rt := d.turns[t].rt;
    if || !rt.executor.ByOrigin? || rt.claim != Some(claim) || rt.role != Some(from) || !rt.phase.Running?
       || ProjectedStatus(d.State()) != RunningRun || ProjectedOwner(d.State()) != Some(from)
    {
      return Err(NotAllowed);
    }
    if action.ToRole? && action.target !in d.team.roles { return Err(UnknownRole); }
    if action.ToRole? && !d.team.AllowsHandoff(from, action.target) { return Err(NotAllowed); }
    ClaimedIsHeld(d.State(), t);
    RetryIsHandoff(d.State(), t, from);
    TurnHasKickoff(d.State(), t);
    r := CheckedAction(d, t, from, action, c);
  }

  // The first guard, the payload, the rest.
  method CheckedAction(d: RunDirectory, t: nat, from: RoleId, action: Action, c: HostChecks) returns (r: Result<Event>)
    requires d.Valid() && t < |d.turns| && HeldByOrigin(d.turns[t].rt) && d.turns[t].rt.business.Some?
    requires d.turns[t].rt.phase.Running? && d.turns[t].rt.role == Some(from) && |d.events| > 0
    requires action.ToRole? ==> action.target in d.team.roles && d.team.AllowsHandoff(from, action.target)
    modifies d
    ensures old(d.history) <= d.history && |d.turns| == |old(d.turns)|
    ensures d.Valid() <==> Scan.ScanVerdict(d.State()).Ok?
    ensures TerminalFor(old(d.events), t).None? ==> d.Valid()
    ensures r.Ok? && d.Valid() ==> Recorded(d.State(), t, r.value)
    ensures TerminalFor(old(d.events), t).None? ==>
              if r.Ok? then Acted(old(d.State()), d.State(), t, from, action, c, r.value)
              else d.events == old(d.events) && |d.events| > 0 && (!c.payloadReadable || Stamp(d.clock) >= DeadlineAt(d.State()))
  {
    hide Inv, TerminalFor, Scan.ScanVerdict, HeldByOrigin, GuardOutcome, Timely, Acted, Stopped, Recorded;
    ghost var s0 := d.State();
    var guarded := GuardAction(d, t, action.ToRole?, Hires(d.team, action), c.first);
    Scan.InvScans(d.State());
    if guarded.Err? { return Err(guarded.why); }
    ghost var y := d.State();
    if guarded.value.Already? {
      if TerminalFor(old(d.events), t).None? { GuardOutcomeFits(guarded.value.e); }
      r := OriginGuarded(d, t, guarded.value.e);
      if TerminalFor(old(d.events), t).None? { StoppedAction(s0, y, d.State(), t, from, action, c, false, guarded.value.e); }
      return;
    }
    if !c.payloadReadable { return Err(Unavailable); }
    r := CommitOriginAction(d, t, from, action, c);
    if r.Ok? && TerminalFor(old(d.events), t).None? { ActedLater(s0, y, d.State(), t, from, action, c, r.value); }
  }

  lemma ActedLater(s: Store, y: Store, x: Store, t: nat, from: RoleId, action: Action, c: HostChecks, e: Event)
    requires t < |s.turns| && y == s.(clock := y.clock) && Acted(y, x, t, from, action, c, e)
    ensures Acted(s, x, t, from, action, c, e)
  {
  }

  // ---- one round of wait_origin

  datatype Awaited = RunEnded | BlockReported | Holding(t: nat) | Again

  function WithClaim(turns: seq<Turn>, claim: nat): set<nat> {
    set t | 0 <= t < |turns| && turns[t].rt.claim == Some(claim)
  }

  lemma ClaimIsHeld(s: Store, t: nat)
    requires Inv(s) && t < |s.turns| && s.turns[t].rt.claim.Some?
    ensures HeldByOrigin(s.turns[t].rt)
  {
    hide Inv;
    TurnNamed(s, t);
  }

  // A Turn is handed to the host only while it is Running, and a business Turn
  // only on the workspace its sender had frozen. An acknowledged claim is
  // reconciled first, whatever the crash left.
  method OriginRound(d: RunDirectory, claim: Option<nat>) returns (r: Result<Awaited>)
    requires d.Valid()
    modifies d
    ensures d.Valid() && old(d.history) <= d.history
    ensures r.Ok? && r.value.Holding? ==>
              && r.value.t < |d.turns| && HeldByOrigin(d.turns[r.value.t].rt) && d.turns[r.value.t].rt.phase.Running?
              && (d.turns[r.value.t].rt.business.Some? ==> Continuous(d.events, d.turns, d.turns[r.value.t].rt))
    ensures r == Ok(RunEnded) ==> ProjectedStatus(d.State()).CompletedRun? || ProjectedStatus(d.State()).CancelledRun?
    ensures r == Ok(BlockReported) ==> ProjectedStatus(d.State()).BlockedRun? && ActiveTurns(d.turns) != {}
  {
    hide Inv, TerminalFor, Continuous, DeadlinePending, Recorded, HeldByOrigin;
    if claim.Some? {
      var matches := WithClaim(d.turns, claim.value);
      if |matches| != 1 { return Err(NotAllowed); }
      var t :| t in matches;
      ClaimIsHeld(d.State(), t);
      var reconciled := Reconcile(d, t);
      if reconciled.Err? { return Err(reconciled.why); }
      if !reconciled.value && d.turns[t].rt.phase.Running? {
        RunningIsContinuous(d.State(), t);
        return Ok(Holding(t));
      }
    }
    var status := ProjectedStatus(d.State());
    if status.CompletedRun? || status.CancelledRun? { return Ok(RunEnded); }
    if status.BlockedRun? {
      r := AwaitBlocked(d);
      return;
    }
    if status.UnstartedRun? { return Ok(Again); }
    OwnerIsKnown(d.State());
    var role := ProjectedOwner(d.State()).value;
    if !d.team.roles[role].binding.Origin? { return Ok(Again); }
    var claims := Claims(d.turns, d.events[|d.events| - 1].id);
    if u :| u in claims {
      if !DeadlinePending(d.turns[u].rt) { return Err(NotAllowed); }
      var closed := FinalizeDeadlineBeforeClaim(d, u);
      return if closed.Ok? then Ok(Again) else Err(closed.why);
    }
    var claimed := ClaimOriginTurn(d, role);
    match claimed {
      case Err(why) => return Err(why);
      case Ok(Claimed(t)) => return Ok(Holding(t));
      case Ok(_) => return Ok(Again);
    }
  }

  lemma OwnerIsKnown(s: Store)
    requires Inv(s) && ProjectedStatus(s).RunningRun?
    ensures |s.events| > 0 && ProjectedOwner(s).Some? && ProjectedOwner(s).value in s.team.roles
  {
    hide ProcInv, PolicyInv, SessionInv, CountInv, TurnsValid, AllLinked;
    assert StepAccepted(s.team, s.events, s.turns, |s.events| - 1);
    hide Accepted;
  }

  lemma RunningIsContinuous(s: Store, t: nat)
    requires Inv(s) && t < |s.turns| && s.turns[t].rt.phase.Running?
    ensures s.turns[t].rt.business.Some? ==> Continuous(s.events, s.turns, s.turns[t].rt)
  {
    hide JournalInv, ProcInv, SessionInv, CountInv, Continuous;
  }

  // A blocked Run: close a Turn claimed too late, report a Block whose Worker
  // is still stopping, or open the management Turn.
  method AwaitBlocked(d: RunDirectory) returns (r: Result<Awaited>)
    requires d.Valid() && ProjectedStatus(d.State()).BlockedRun?
    modifies d
    ensures d.Valid() && old(d.history) <= d.history
    ensures r.Ok? ==> r.value.Holding? || r.value.Again? || r.value.BlockReported?
    ensures r.Ok? && r.value.Holding? ==>
              && r.value.t < |d.turns| && HeldByOrigin(d.turns[r.value.t].rt) && d.turns[r.value.t].rt.phase.Running?
              && d.turns[r.value.t].rt.business.None?
    ensures r == Ok(BlockReported) ==> d.State() == old(d.State()) && ActiveTurns(d.turns) != {}
  {
    hide Inv, TerminalFor, DeadlinePending, Recorded;
    BlockedTail(d.State());
    var tail := d.events[|d.events| - 1];
    OneActiveOneClaimant(d.State(), tail.id);
    if ActiveTurns(d.turns) != {} {
      var t := |d.turns| - 1;
      if DeadlinePending(d.turns[t].rt) {
        var closed := FinalizeDeadlineBeforeClaim(d, t);
        return if closed.Ok? then Ok(Again) else Err(closed.why);
      }
      if d.turns[t].rt.executor.ByWorker? && tail.turn == Some(t) { return Ok(BlockReported); }
      return Err(NotAllowed);
    }
    NoClaimOfBlock(d.State());
    var manager := CreateManagementTurn(d);
    ManagementHeld(d.State(), manager.value);
    return Ok(Holding(manager.value));
  }

  lemma BlockedTail(s: Store)
    requires ProjectedStatus(s).BlockedRun?
    ensures |s.events| > 0 && s.events[|s.events| - 1].body.Block?
  {
  }

  // The manager of the tail Block would still be active.
  lemma NoClaimOfBlock(s: Store)
    requires Inv(s) && |s.events| > 0 && ActiveTurns(s.turns) == {}
    ensures Claims(s.turns, s.events[|s.events| - 1].id) == {}
  {
    hide Inv, TerminalFor;
    NamedAt(s, |s.events| - 1);
    forall t | 0 <= t < |s.turns| ensures s.turns[t].rt.input != s.events[|s.events| - 1].id {
      TerminalIsSuccessor(s, t);
      assert t !in ActiveTurns(s.turns);
      TurnNamed(s, t);
      FinalizedHasTerminal(s, t);
    }
  }

  lemma ManagementHeld(s: Store, t: nat)
    requires Inv(s) && t < |s.turns| && s.turns[t].rt.business.None?
    ensures HeldByOrigin(s.turns[t].rt)
  {
    hide Inv;
    TurnNamed(s, t);
  }
}
