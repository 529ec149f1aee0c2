/** stage_external_action_locked: what a running Harness may leave in its outbox. */
module Staging {
  import opened Model
  import opened Options
  import opened Turns
  import opened Replay
  import opened Invariant
  import opened Machine
  import opened Endings
  import opened Guards
  import opened FinalSaves
  import opened Directory
  import opened TurnClaims
  import opened Delivery
  import O = Origin

  datatype Staged = Accepted | AlreadyAccepted | AlreadyFinalized(e: Event) | TeamBlocked(e: Event)

  // Why staging ended the Turn instead.
  predicate StoppedStaging(x: Store, t: nat, action: Action, prepared: bool, preflight: bool, e: Event)
    requires t < |x.turns| && |x.events| > 0
  {
    || (DeadlineBlock(e) && !BeforeDeadline(x, x.clock))
    || (e.body == Block(Limit, Some(MaxTurns)) && action.ToRole?
        && x.turns[t].rt.business.Some? && x.turns[t].rt.business.value >= x.team.maxTurns)
    || (e.body == Block(ProfileChanged, None) && O.Hires(x.team, action) && !prepared && !preflight)
  }

  // The target's profile failed to prepare. A preflight rejection leaves the
  // Turn with the token; anything else ends it.
  method RouteRejected(d: RunDirectory, t: nat, preflight: bool) returns (r: Result<Staged>)
    requires d.Valid() && t < |d.turns| && d.turns[t].rt.business.Some?
    modifies d
    ensures d.Valid() && old(d.history) <= d.history && |d.events| > 0
    ensures d.turns == old(d.turns)
    ensures r.Err? ==> d.events == old(d.events) && r.why.Unavailable? && preflight
    ensures r.Ok? ==> r.value.TeamBlocked? && TerminalFor(d.events, t) == Some(r.value.e)
    ensures r.Ok? && TerminalFor(old(d.events), t).None? ==>
              && d.events == old(d.events) + [r.value.e]
              && if BeforeDeadline(d.State(), d.clock) then !preflight && r.value.e.body == Block(ProfileChanged, None)
                 else DeadlineBlock(r.value.e)
  {
    hide Inv, TerminalFor;
    TurnHasKickoff(d.State(), t);
    var probed := d.Now();
    if BeforeDeadline(d.State(), probed) && preflight { return Err(Unavailable); }
    var e := UnpreparedEnds(d, t, probed);
    return Ok(TeamBlocked(e));
  }

  // The deadline, the last Turn, the target's profile, and the deadline again.
  method StageInTime(d: RunDirectory, t: nat, action: Action, prepared: bool, preflight: bool) returns (r: Result<Staged>)
    requires d.Valid() && t < |d.turns| && d.turns[t].rt.business.Some? && d.turns[t].outbox.None? && |d.events| > 0
    requires action.ToRole? ==> action.target in d.team.roles
    modifies d
    ensures d.Valid() && old(d.history) <= d.history && |d.events| > 0
    ensures r == Ok(Accepted) ==>
              && d.State() == old(d.State()).(clock := d.clock, turns := old(d.turns)[t := old(d.turns)[t].(outbox := Some(action))])
              && d.clock < DeadlineAt(d.State()) * 1000
              && (action.ToRole? ==> d.turns[t].rt.business.value < d.team.maxTurns)
    ensures r != Ok(Accepted) ==> d.turns == old(d.turns)
    ensures (&& BeforeDeadline(d.State(), d.clock)
             && (action.ToRole? ==> && d.turns[t].rt.business.value < d.team.maxTurns
                                    && (d.team.roles[action.target].binding.External? ==> prepared))) ==>
              r == Ok(Accepted)
    ensures r.Ok? ==> r.value.Accepted? || r.value.TeamBlocked?
    ensures r.Ok? && r.value.TeamBlocked? ==> TerminalFor(d.events, t) == Some(r.value.e) && |d.events| > 0
    ensures r.Ok? && r.value.TeamBlocked? && TerminalFor(old(d.events), t).None? ==>
              d.events == old(d.events) + [r.value.e] && StoppedStaging(d.State(), t, action, prepared, preflight, r.value.e)
  {
    hide Inv, TerminalFor, BlockTimely;
    var rt := d.turns[t].rt;
    var now := d.Now();
    if !BeforeDeadline(d.State(), now) {
      var e := DeadlineEnds(d, t);
      return Ok(TeamBlocked(e));
    }
    if action.ToRole? {
      if rt.business.value >= d.team.maxTurns {
        var e := BlockNow(d, t, Limit, Some(MaxTurns));
        return if e.Ok? then Ok(TeamBlocked(e.value)) else Err(e.why);
      }
      if d.team.roles[action.target].binding.External? && !prepared {
        r := RouteRejected(d, t, preflight);
        return;
      }
    }
    now := d.Now();
    if !BeforeDeadline(d.State(), now) {
      var e := DeadlineEnds(d, t);
      return Ok(TeamBlocked(e));
    }
    d.Perform(PutOutbox(t, action));
    return Ok(Accepted);
  }

  // A first, lawful action of the role that owns the token.
  predicate Welcome(s: Store, t: nat, action: Action, prepared: bool)
    requires t < |s.turns|
  {
    var rt := s.turns[t].rt;
    && ProjectedStatus(s).RunningRun? && ProjectedOwner(s) == rt.role && rt.executor.ByWorker?
    && (rt.phase.Starting? || rt.phase.Running?) && s.turns[t].outbox.None?
    && (action.ToRole? ==>
          && action.target in s.team.roles && rt.role.Some? && s.team.AllowsHandoff(rt.role.value, action.target)
          && rt.business.Some? && rt.business.value < s.team.maxTurns
          && (s.team.roles[action.target].binding.External? ==> prepared))
  }

  // At most one action is ever accepted for a Turn, a Handoff only along an
  // edge of the frozen policy, and none for a Turn whose role does not own the
  // token. (After a Handoff of a role to itself the role does own it.)
  method StageAction(d: RunDirectory, t: nat, action: Action, prepared: bool, preflight: bool) returns (r: Result<Staged>)
    requires d.Valid() && t < |d.turns|
    modifies d
    ensures d.Valid() && old(d.history) <= d.history && |d.turns| == |old(d.turns)|
    ensures r == Ok(Accepted) ==>
              && old(d.turns)[t].outbox.None? && d.turns == old(d.turns)[t := old(d.turns)[t].(outbox := Some(action))]
              && d.events == old(d.events)
              && (TerminalFor(d.events, t).Some? ==> TerminalFor(d.events, t).value.body.Handoff?
                                                     && TerminalFor(d.events, t).value.to == d.turns[t].rt.role)
              && ProjectedOwner(d.State()) == d.turns[t].rt.role && |d.events| > 0 && d.clock < DeadlineAt(d.State()) * 1000
              && (action.ToRole? ==> d.turns[t].rt.role.Some? && d.team.AllowsHandoff(d.turns[t].rt.role.value, action.target)
                                     && d.turns[t].rt.business.Some? && d.turns[t].rt.business.value < d.team.maxTurns)
    ensures r != Ok(Accepted) ==> d.turns == old(d.turns)
    ensures Welcome(old(d.State()), t, action, prepared) && |d.events| > 0 && BeforeDeadline(d.State(), d.clock) ==> r == Ok(Accepted)
    ensures r == Ok(AlreadyAccepted) ==> d.turns[t].outbox == Some(action)
    ensures r.Ok? && r.value.AlreadyFinalized? ==> TerminalFor(d.events, t) == Some(r.value.e)
    ensures r.Ok? && r.value.TeamBlocked? ==> TerminalFor(d.events, t) == Some(r.value.e) && |d.events| > 0
    ensures r.Ok? && r.value.TeamBlocked? && TerminalFor(old(d.events), t).None? ==>
              d.events == old(d.events) + [r.value.e] && StoppedStaging(d.State(), t, action, prepared, preflight, r.value.e)
  {
    hide Inv, TerminalFor, BlockTimely;
    var rt := d.turns[t].rt;
    if !ProjectedStatus(d.State()).RunningRun? || ProjectedOwner(d.State()) != rt.role || !rt.executor.ByWorker? {
      var existing := TerminalFor(d.events, t);
      return if existing.Some? then Ok(AlreadyFinalized(existing.value)) else Err(NoTokenOwner);
    }
    if !rt.phase.Starting? && !rt.phase.Running? { return Err(TurnSpent); }
    WorkerRole(d.State(), t);
    TurnHasKickoff(d.State(), t);
    O.RetryIsHandoff(d.State(), t, rt.role.value);
    if action.ToRole? && action.target !in d.team.roles { return Err(UnknownRole); }
    if action.ToRole? && !d.team.AllowsHandoff(rt.role.value, action.target) { return Err(NotAllowed); }
    if d.turns[t].outbox.Some? {
      return if d.turns[t].outbox == Some(action) then Ok(AlreadyAccepted) else Err(NotAllowed);
    }
    r := StageInTime(d, t, action, prepared, preflight);
  }
}
