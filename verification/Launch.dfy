/** The launch handshake: Worker, Supervisor and Runner, each between its own locks. */
module Launch {
  import opened Model
  import opened Options
  import opened Journal
  import opened Turns
  import opened Replay
  import opened Invariant
  import opened Sessions
  import opened Machine
  import opened Endings
  import opened Guards
  import opened FinalSaves
  import opened Directory
  import opened TurnClaims
  import opened Delivery
  import opened Finalize
  import L = Later
  import Scan
  import Safety

  // ---- saves of a Turn that has not ended

  // A launch step: nonce, process identities, phase Running.
  predicate LaunchShape(turn: Turn, rt: Runtime) {
    && rt == turn.rt.(phase := rt.phase, nonce := rt.nonce, supervisor := rt.supervisor, runner := rt.runner)
    && (rt.phase.Starting? || rt.phase.Running?)
    && PhaseMoves(turn.rt.phase, rt.phase)
    && KeptOnce(turn.rt.nonce, rt.nonce) && KeptOnce(turn.rt.supervisor, rt.supervisor) && KeptOnce(turn.rt.runner, rt.runner)
    && (rt.runner.Some? ==> rt.supervisor.Some?)
    && (rt.phase.Running? ==> rt.nonce.Some? && rt.supervisor.Some? && rt.runner.Some? && turn.auth.Some?)
    && (rt.supervisor.Some? ==> turn.sup.Some? && turn.sup.value.pid == rt.supervisor.value)
    && (rt.runner.Some? ==> turn.runnerFile == rt.runner)
  }

  lemma LaunchSaves(s: Store, t: nat, rt: Runtime)
    requires Inv(s) && Open(s, t) && s.turns[t].rt.executor.ByWorker? && s.turns[t].rt.before.Some?
    requires LaunchShape(s.turns[t], rt)
    requires Continuous(s.events, s.turns, s.turns[t].rt)
    requires rt.nonce.Some? && s.turns[t].rt.nonce.None? ==> LaunchFits(s, t)
    ensures ValidRuntime(s.team, rt) && SaveAllowed(s.turns[t].rt, rt) && SaveAllowedNow(s, t, rt)
  {
    hide Inv, Linked, EndedBy;
    TurnNamed(s, t);
    OpenHasNoEnding(s, t);
    OpenLinks(s, t, rt);
    OriginEvidence(s, t, rt);
  }

  // ---- the Worker

  // A nonce is taken once: the launch of a Turn is attempted at most once.
  method TakeNonce(d: RunDirectory, t: nat, nonce: Nonce) returns (taken: bool)
    requires d.Valid() && t < |d.turns| && d.turns[t].rt.executor.ByWorker? && TerminalFor(d.events, t).None?
    requires d.turns[t].rt.before.Some? && Continuous(d.events, d.turns, d.turns[t].rt)
    requires d.turns[t].rt.nonce.None? ==> LaunchFits(d.State(), t)
    modifies d
    ensures d.Valid() && old(d.history) <= d.history && |d.turns| == |old(d.turns)|
    ensures taken <==> old(d.turns)[t].rt.nonce.None? && old(d.turns)[t].rt.phase.Starting?
    ensures taken ==>
      d.State() == old(d.State()).(turns := old(d.turns)[t := old(d.turns)[t].(rt := old(d.turns)[t].rt.(nonce := Some(nonce)))])
    ensures !taken ==> d.State() == old(d.State())
  {
    hide Inv, TerminalFor, ValidRuntime, SaveAllowed, SaveAllowedNow, Continuous, Open, LaunchFits;
    taken := d.turns[t].rt.phase.Starting? && d.turns[t].rt.nonce.None?;
    if taken {
      UnendedIsOpen(d.State(), t);
      var rt := d.turns[t].rt.(nonce := Some(nonce));
      NonceShape(d.State(), t, nonce);
      LaunchSaves(d.State(), t, rt);
      var saved := d.SaveRuntime(t, rt);
    }
  }

  lemma NonceShape(s: Store, t: nat, nonce: Nonce)
    requires Inv(s) && t < |s.turns| && s.turns[t].rt.nonce.None? && s.turns[t].rt.phase.Starting?
    ensures LaunchShape(s.turns[t], s.turns[t].rt.(nonce := Some(nonce)))
  {
    hide Inv;
    UnlaunchedHasNoFiles(s, t);
  }

  predicate DeadlineEnding(e: Event) { e.body.Block? && e.body.limit == Some(LimitReason.Deadline) }

  function NotLaunched(rt: Runtime, e: Event): Runtime {
    rt.(phase := Finalized, outcome := Some(TerminalOutcome(e)), terminal := Some(e.id),
        ending := Ending(rt.ending.exitCode, Some(KindFor(e)), Some(true)))
  }

  // The adapter refused, the Supervisor could not be created, or it exited
  // before it announced itself: the Turn ends, with whatever event ended it.
  method LaunchFailed(d: RunDirectory, t: nat, reason: BlockReason) returns (r: Result<Option<Event>>)
    requires d.Valid() && t < |d.turns| && d.turns[t].rt.executor.ByWorker? && d.turns[t].rt.before.Some?
    requires d.turns[t].sup.None? && d.turns[t].runnerFile.None?
    requires reason.StartFailure? || reason.ProfileChanged? || reason.Recovery?
    modifies d
    ensures d.Valid() && old(d.history) <= d.history && |d.turns| == |old(d.turns)|
    ensures r.Ok? ==> r.value.Some? && Recorded(d.State(), t, r.value.value) && d.turns[t].rt.phase.Finalized?
    ensures r.Ok? && TerminalFor(old(d.events), t).None? ==>
              d.events == old(d.events) + [r.value.value] && r.value.value.body == Block(reason, None)
    ensures r.Ok? && TerminalFor(old(d.events), t).Some? ==> d.events == old(d.events) && r.value == TerminalFor(d.events, t)
    ensures r.Ok? ==>
              && (d.turns[t].rt.ending.kind == Some(CancelledExit) <==> r.value.value.body.Cancel?)
              && (d.turns[t].rt.ending.kind == Some(DeadlineExit) <==> DeadlineEnding(r.value.value))
              && d.turns[t].rt.ending.quiescent == Some(true)
    ensures r.Err? && !Ended(old(d.turns)[t].rt.phase) ==>
              d.events == old(d.events) && |d.events| > 0 && Stamp(d.clock) >= DeadlineAt(d.State())
  {
    hide Inv, TerminalFor, ValidRuntime, BlockTimely, GroupClosed;
    WorkerRole(d.State(), t);
    NoSnapshotNoIdentity(d.State(), t);
    ghost var rt0 := d.turns[t].rt;
    var e := BlockNow(d, t, reason, None);
    TimelyBeforeDeadline(d.team, d.turns[t].rt, reason, Stamp(d.clock), DeadlineAt(d.State()));
    if e.Err? { return Err(e.why); }
    OutcomesAgree(d.State(), t, e.value);
    TurnNamed(d.State(), t);
    FreshIsPlain(d.State(), t);
    NoGroup(d.turns[t], d.dead);
    r := EndTurn(d, t, NotLaunched(d.turns[t].rt, e.value), e.value);
  }

  lemma FreshIsPlain(s: Store, t: nat)
    requires Inv(s) && t < |s.turns| && s.turns[t].rt.executor.ByWorker?
    ensures s.turns[t].rt.evidence.completed ==> s.turns[t].rt.evidence.started && !s.turns[t].rt.evidence.permission
    ensures s.turns[t].rt.runner.Some? ==> s.turns[t].rt.supervisor.Some?
  {
    hide Inv;
    TurnNamed(s, t);
  }

  lemma NoGroup(turn: Turn, dead: set<Pid>)
    requires turn.sup.None?
    ensures GroupClosed(turn, dead)
  {
  }

  // _authorize_launch_locked, for the snapshot the Worker has just read.
  method AuthorizeLaunch(d: RunDirectory, t: nat, profileHolds: bool) returns (r: Result<bool>)
    requires d.Valid() && t < |d.turns| && d.turns[t].rt.executor.ByWorker? && d.turns[t].rt.before.Some?
    requires d.turns[t].rt.nonce.Some? && d.turns[t].sup.Some? && d.turns[t].sup.value.state.SupWaiting?
    modifies d
    ensures d.Valid() && old(d.history) <= d.history
    ensures r == Ok(true) ==>
              && TerminalFor(d.events, t).None? && ActiveTurns(d.turns) == {t}
              && d.turns[t].rt.phase.Running? && d.turns[t].auth.Some? && old(d.turns)[t].auth.None?
              && d.turns[t].rt.runner == d.turns[t].runnerFile == Some(d.turns[t].auth.value.runner)
              && d.turns[t].rt.supervisor == Some(d.turns[t].auth.value.supervisor)
              && Continuous(d.events, d.turns, d.turns[t].rt)
    ensures r == Ok(true) ==>
              && profileHolds && |d.events| > 0 && BeforeDeadline(d.State(), d.clock)
              && d.turns[t].auth.value.supervisor !in old(d.dead) && d.turns[t].auth.value.runner !in old(d.dead)
    ensures r == Ok(false) && TerminalFor(old(d.events), t).None? && ProjectedOwner(old(d.State())) == old(d.turns)[t].rt.role ==>
              exists e :: d.events == old(d.events) + [e] && TerminalFor(d.events, t) == Some(e)
                          && if e.body == Block(ProfileChanged, None) then !profileHolds
                             else DeadlineBlock(e) && !BeforeDeadline(d.State(), d.clock)
    ensures r != Ok(true) ==> d.turns == old(d.turns)
    ensures |d.turns| == |old(d.turns)|
  {
    hide Inv, TerminalFor, ValidRuntime, SaveAllowed, SaveAllowedNow, Continuous, BlockTimely, TailId, ProjectedOwner;
    WorkerRole(d.State(), t);
    SnapshotValid(d.State(), t);
    TurnHasKickoff(d.State(), t);
    if TerminalFor(d.events, t).Some? || ProjectedOwner(d.State()) != d.turns[t].rt.role { return Ok(false); }
    if ActiveTurns(d.turns) != {t} || d.turns[t].rt.phase.RecoveryRequired? { return Err(NotAllowed); }
    UnendedIsOpen(d.State(), t);
    var now := d.Now();
    if !BeforeDeadline(d.State(), now) {
      StampKeepsSide(now, DeadlineAt(d.State()));
      var e := DeadlineEnds(d, t);
      return Ok(false);
    }
    if !profileHolds {
      var e := BlockNow(d, t, ProfileChanged, None);
      return if e.Ok? then Ok(false) else Err(e.why);
    }
    var sn := d.turns[t].sup.value;
    var supervisor := Identity(d, sn.pid);
    if !supervisor.Match? { return Err(BadProcessChain); }
    var runner := Identity(d, sn.runner.value);
    if d.turns[t].runnerFile != sn.runner || !runner.Match? { return Err(BadProcessChain); }
    AlreadyAuthorized(d.State(), t);
    if d.turns[t].auth.Some? { return Err(BadProcessChain); }
    Authorize(d, t);
    return Ok(true);
  }

  // The authorization file is immutable; only an authorized Turn is Running.
  lemma AlreadyAuthorized(s: Store, t: nat)
    requires Inv(s) && Open(s, t) && s.turns[t].rt.executor.ByWorker? && s.turns[t].rt.nonce.Some?
    ensures s.turns[t].auth.None? ==> s.turns[t].rt.phase.Starting?
    ensures Continuous(s.events, s.turns, s.turns[t].rt)
  {
    hide JournalInv, SessionInv, CountInv, Continuous;
    assert ProcOk(s.turns[t], t, s.dead, s.passed);
  }

  method SaveLaunch(d: RunDirectory, t: nat, rt: Runtime)
    requires d.Valid() && Open(d.State(), t) && d.turns[t].rt.executor.ByWorker? && d.turns[t].rt.before.Some?
    requires LaunchShape(d.turns[t], rt) && Continuous(d.events, d.turns, d.turns[t].rt)
    requires d.turns[t].rt.nonce.Some?
    modifies d
    ensures d.Valid() && old(d.history) <= d.history
    ensures d.State() == old(d.State()).(turns := old(d.turns)[t := old(d.turns)[t].(rt := rt)])
    ensures Open(d.State(), t) && Continuous(d.events, d.turns, d.turns[t].rt)
  {
    hide Inv, ValidRuntime, SaveAllowed, SaveAllowedNow, Continuous;
    LaunchSaves(d.State(), t, rt);
    ghost var s0 := d.State();
    var saved := d.SaveRuntime(t, rt);
    L.SameFacts(s0, d.State(), t);
  }

  // Identities first, then the authorization file, then phase Running: the
  // Runner needs all three.
  method Authorize(d: RunDirectory, t: nat)
    requires d.Valid() && Open(d.State(), t) && d.turns[t].rt.executor.ByWorker? && d.turns[t].rt.before.Some?
    requires d.turns[t].rt.nonce.Some? && d.turns[t].rt.phase.Starting? && d.turns[t].auth.None?
    requires d.turns[t].sup.Some? && d.turns[t].sup.value.runner.Some? && d.turns[t].runnerFile == d.turns[t].sup.value.runner
    requires d.turns[t].rt.supervisor.Some? ==> d.turns[t].rt.supervisor == Some(d.turns[t].sup.value.pid)
    requires d.turns[t].rt.runner.Some? ==> d.turns[t].runnerFile == d.turns[t].rt.runner
    requires Continuous(d.events, d.turns, d.turns[t].rt)
    modifies d
    ensures d.Valid() && old(d.history) <= d.history
    ensures d.State() == old(d.State()).(turns := d.turns)
    ensures
      var turn := old(d.turns)[t];
      var auth := Authorization(turn.sup.value.pid, turn.sup.value.runner.value);
      d.turns == old(d.turns)[t := turn.(auth := Some(auth),
        rt := turn.rt.(phase := Running, supervisor := Some(auth.supervisor), runner := Some(auth.runner)))]
    ensures Open(d.State(), t) && Continuous(d.events, d.turns, d.turns[t].rt)
  {
    hide Inv, ValidRuntime, Continuous, Open;
    OpenTurn(d.State(), t);
    var sn := d.turns[t].sup.value;
    SaveLaunch(d, t, d.turns[t].rt.(supervisor := Some(sn.pid), runner := sn.runner));
    ghost var s0 := d.State();
    d.Perform(PutAuthorization(t, Authorization(sn.pid, sn.runner.value)));
    L.SameFacts(s0, d.State(), t);
    SameOpen(s0, d.State(), t);
    SaveLaunch(d, t, d.turns[t].rt.(phase := Running));
  }

  lemma OpenTurn(s: Store, t: nat)
    requires Open(s, t)
    ensures t < |s.turns|
  {
  }

  lemma SameOpen(a: Store, b: Store, t: nat)
    requires t < |a.turns| && Open(a, t) && b.events == a.events && |b.turns| == |a.turns| && b.turns[t].rt == a.turns[t].rt
    ensures Open(b, t)
  {
  }
}
