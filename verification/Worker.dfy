/** One round of a Worker: claim the tail, launch the Turn, end it. */
module Worker {
  import opened Model
  import opened Options
  import opened Journal
  import opened Turns
  import opened Replay
  import opened Invariant
  import opened Sessions
  import opened Machine
  import opened Endings
  import opened Guards
  import opened FinalSaves
  import opened Directory
  import opened TurnClaims
  import opened Delivery
  import opened Finalize
  import opened Launch
  import L = Later
  import Scan

  // What the Worker knows about the Turn it claimed, whatever happens meanwhile.
  ghost predicate Mine(s: Store, t: nat, role: RoleId) {
    && t < |s.turns| && s.turns[t].rt.executor.ByWorker? && s.turns[t].rt.role == Some(role)
    && s.turns[t].rt.before.Some? && Newest(s, t) && Continuous(s.events, s.turns, s.turns[t].rt)
  }

  lemma MineLasts(a: Store, b: Store, t: nat, role: RoleId, spawned: bool)
    requires Mine(a, t, role) && L.Later(a, b) && Undisturbed(AsWorker(role, t, spawned), a, b)
    ensures Mine(b, t, role)
    ensures L.TurnLater(a.turns[t], b.turns[t]) && b.turns[t].rt.input == a.turns[t].rt.input
    ensures !spawned ==> b.turns[t].sup == a.turns[t].sup && b.turns[t].runnerFile == a.turns[t].runnerFile
  {
    hide Continuous;
    L.ContinuityLasts(a, b, t);
    L.LaterTurn(a, b, t);
    forall u | t < u < |b.turns| ensures b.turns[u].rt.role != Some(role) {
      if u < |a.turns| { L.LaterTurn(a, b, u); }
    }
  }

  method Unlocked(d: RunDirectory, t: nat, role: RoleId, spawned: bool)
    requires d.Valid() && Mine(d.State(), t, role)
    modifies d
    ensures d.Valid() && old(d.history) <= d.history && Mine(d.State(), t, role)
    ensures L.TurnLater(old(d.turns)[t], d.turns[t]) && d.turns[t].rt.input == old(d.turns)[t].rt.input
    ensures !spawned ==> d.turns[t].sup == old(d.turns)[t].sup && d.turns[t].runnerFile == old(d.turns)[t].runnerFile
  {
    hide Inv, Mine, L.Later, L.TurnLater, Undisturbed;
    ghost var s0 := d.State();
    d.Interfere(AsWorker(role, t, spawned));
    MineLasts(s0, d.State(), t, role, spawned);
  }

  // How a round may leave the directory: readable by the next scan, or with the
  // one conflict that `FinalizeExternal` can write.
  ghost predicate Sound(d: RunDirectory, t: nat)
    reads d
  {
    && (d.Valid() <==> Scan.ScanVerdict(d.State()).Ok?)
    && (!d.Valid() ==> t < |d.turns| && d.turns[t].rt.phase.RecoveryRequired?
                       && d.turns[t].sup.Some? && d.turns[t].sup.value.state.SupFinished?)
  }

  lemma ValidIsSound(d: RunDirectory, t: nat)
    requires d.Valid()
    ensures Sound(d, t)
  {
    hide Inv, Scan.ScanVerdict;
    Scan.InvScans(d.State());
  }

  method FinalizeMine(d: RunDirectory, t: nat, allowCapture: bool) returns (r: Result<Option<Event>>)
    requires d.Valid() && t < |d.turns| && d.turns[t].rt.executor.ByWorker? && Newest(d.State(), t)
    requires d.turns[t].rt.phase.Finalized? ==> d.turns[t].rt.before.Some?
    modifies d
    ensures old(d.history) <= d.history && Sound(d, t)
    ensures d.Valid() && r.Ok? && r.value.Some? ==> Recorded(d.State(), t, r.value.value)
  {
    hide Inv, Scan.ScanVerdict, Continuous, GroupClosed, TerminalFor;
    r := FinalizeExternal(d, t, allowCapture);
  }

  // A Turn that waits to be launched: its process files do not exist.
  ghost predicate Waits(s: Store, t: nat, role: RoleId) {
    Mine(s, t, role) && s.turns[t].sup.None? && s.turns[t].runnerFile.None?
  }

  // The Session of a waiting Turn is the one its claim was computed from, so
  // the generation it was given still holds, and so does the check for a lost
  // Session, until the Supervisor exists.
  lemma WaitingGeneration(s: Store, t: nat, role: RoleId)
    requires Inv(s) && Waits(s, t, role)
    ensures OfRole(s, t) && s.turns[t].rt.role == Some(role)
    ensures s.turns[t].rt.generation == Some(LaunchGeneration(s.team.roles[role].policy, Lookup(s.sessions, role)))
  {
    WorkerRole(s, t);
    hide JournalInv, ProcInv, PolicyInv, CountInv, Continuous, Newest, LaunchGeneration;
    assert ClaimHeld(s, t);
  }

  // A Turn of a role that resumes Sessions, claimed behind a lost one: with
  // generation g, behind generation g - 1.
  lemma LostGeneration(s: Store, t: nat)
    requires t < |s.turns| && OfRole(s, t) && LostSession(s, t)
    requires s.turns[t].rt.generation == Some(LaunchGeneration(s.team.roles[s.turns[t].rt.role.value].policy,
                                                               Lookup(s.sessions, s.turns[t].rt.role.value)))
    ensures s.sessions[s.turns[t].rt.role.value].generation + 1 == s.turns[t].rt.generation.value
  {
  }

  // Tried: the Turn was finalized or launched. The rest are errors.
  datatype Attempt = Tried(r: Result<Option<Event>>) | Spent | SessionMoved | ResumeNeeded

  // _launch_turn. The generation of a claim never moves, and only a lost
  // Session of a Turn that was not claimed on a Resume is refused.
  method LaunchTurn(d: RunDirectory, t: nat, role: RoleId, nonce: Nonce) returns (l: Attempt)
    requires d.Valid() && Mine(d.State(), t, role)
    modifies d
    ensures old(d.history) <= d.history && Sound(d, t)
    ensures d.Valid() && l.Tried? && l.r.Ok? && l.r.value.Some? ==> Recorded(d.State(), t, l.r.value.value)
    ensures !l.SessionMoved?
    ensures l.ResumeNeeded? ==>
              && d.Valid() && t < |d.turns| && d.turns[t].rt.role == Some(role) && d.turns[t].rt.nonce.None?
              && role in d.team.roles && d.team.roles[role].policy.Resumable?
              && role in d.sessions && d.sessions[role].ref.None?
              && !old(d.turns)[t].rt.input.kind.ResumeKind?
    ensures l.Spent? ==> d.Valid() && t < |d.turns| && (!d.turns[t].rt.phase.Starting? || d.turns[t].rt.nonce.Some?)
  {
    hide Inv, Scan.ScanVerdict, Continuous, GroupClosed, TerminalFor, L.TurnLater, Sound, Newest, LaunchGeneration;
    Unlocked(d, t, role, false);
    if TerminalFor(d.events, t).Some? {
      var r := FinalizeMine(d, t, false);
      return Tried(r);
    }
    ValidIsSound(d, t);
    if !d.turns[t].rt.phase.Starting? || d.turns[t].rt.nonce.Some? { return Spent; }
    UnlaunchedHasNoFiles(d.State(), t);
    Unlocked(d, t, role, false);
    ValidIsSound(d, t);
    WaitingGeneration(d.State(), t, role);
    if Some(LaunchGeneration(d.team.roles[role].policy, Lookup(d.sessions, role))) != d.turns[t].rt.generation {
      return SessionMoved;
    }
    // Only an explicit Resume may restart an unavailable Session as fresh.
    if d.team.roles[role].policy.Resumable? && role in d.sessions && d.sessions[role].ref.None?
       && !d.turns[t].rt.input.kind.ResumeKind?
    {
      LostHasNoNonce(d.State(), t);
      return ResumeNeeded;
    }
    var r := PrepareAndLaunch(d, t, role, nonce);
    return Tried(r);
  }

  lemma LostHasNoNonce(s: Store, t: nat)
    requires Inv(s) && t < |s.turns| && OfRole(s, t) && Newest(s, t) && LostSession(s, t)
    requires s.turns[t].rt.generation == Some(LaunchGeneration(s.team.roles[s.turns[t].rt.role.value].policy,
                                                               Lookup(s.sessions, s.turns[t].rt.role.value)))
    requires !s.turns[t].rt.input.kind.ResumeKind?
    ensures s.turns[t].rt.nonce.None?
  {
    hide JournalInv, ProcInv, PolicyInv, CountInv, Newest, StepHeld, ClaimHeld, StartedByResume, SettledOnce, RouteHeld;
    assert LaunchOk(s, t);
  }

  // The adapter prepares the launch while no lock is held.
  method PrepareAndLaunch(d: RunDirectory, t: nat, role: RoleId, nonce: Nonce) returns (r: Result<Option<Event>>)
    requires d.Valid() && Waits(d.State(), t, role) && LaunchFits(d.State(), t)
    modifies d
    ensures old(d.history) <= d.history && Sound(d, t)
    ensures d.Valid() && r.Ok? && r.value.Some? ==> Recorded(d.State(), t, r.value.value)
  {
    hide Inv, Scan.ScanVerdict, Continuous, GroupClosed, TerminalFor, Sound, Newest, LaunchFits, L.Later;
    ghost var s0, h0 := d.State(), d.history;
    Unlocked(d, t, role, false);
    SinceThen(d, h0);
    StillFits(s0, d.State(), t, role);
    var prepared: bool, changed: bool, created: bool := *, *, *;
    if !prepared {
      r := LaunchFailed(d, t, if changed then ProfileChanged else StartFailure);
      ValidIsSound(d, t);
      return;
    }
    r := LaunchOnce(d, t, role, nonce, created);
  }

  // Nothing another process does makes a waiting Turn unfit.
  lemma StillFits(a: Store, b: Store, t: nat, role: RoleId)
    requires Inv(a) && Inv(b) && L.Later(a, b) && Waits(a, t, role) && Waits(b, t, role) && LaunchFits(a, t)
    ensures LaunchFits(b, t)
  {
    hide Inv, Continuous, Newest, LaunchGeneration;
    WaitingGeneration(a, t, role);
    WaitingGeneration(b, t, role);
    L.LaterTurn(a, b, t);
    if LostSession(b, t) {
      LostGeneration(b, t);
      PositiveGeneration(b, role);
      KeptGeneration(a, b, t, role);
    }
  }

  lemma PositiveGeneration(s: Store, role: RoleId)
    requires Inv(s) && role in s.sessions
    ensures s.sessions[role].generation >= 1
  {
    hide JournalInv, ProcInv, PolicyInv, CountInv, StepHeld, ClaimHeld, LaunchOk, SettledOnce, RouteHeld;
    assert SessionOk(s.team, s.turns, role, s.sessions[role]);
  }

  lemma KeptGeneration(a: Store, b: Store, t: nat, role: RoleId)
    requires t < |a.turns| && t < |b.turns| && OfRole(a, t) && OfRole(b, t) && L.Later(a, b)
    requires a.turns[t].rt.role == b.turns[t].rt.role == Some(role) && a.turns[t].rt.generation == b.turns[t].rt.generation
    requires a.turns[t].rt.generation == Some(LaunchGeneration(a.team.roles[role].policy, Lookup(a.sessions, role)))
    requires LostSession(b, t) && b.sessions[role].generation + 1 == b.turns[t].rt.generation.value
    requires b.sessions[role].generation >= 1
    ensures LostSession(a, t)
  {
  }

  // From the launch nonce to the end of the Supervisor process.
  method LaunchOnce(d: RunDirectory, t: nat, role: RoleId, nonce: Nonce, created: bool) returns (r: Result<Option<Event>>)
    requires d.Valid() && Waits(d.State(), t, role) && LaunchFits(d.State(), t)
    modifies d
    ensures old(d.history) <= d.history && Sound(d, t)
    ensures d.Valid() && r.Ok? && r.value.Some? ==> Recorded(d.State(), t, r.value.value)
  {
    hide Inv, Scan.ScanVerdict, Continuous, GroupClosed, TerminalFor, Sound, LaunchFits;
    if TerminalFor(d.events, t).Some? {
      r := FinalizeMine(d, t, false);
      return;
    }
    ghost var s0 := d.State();
    var taken := TakeNonce(d, t, nonce);
    ValidIsSound(d, t);
    if !taken { return Err(NotAllowed); }
    NonceKeepsMine(s0, d.State(), t, role);
    Unlocked(d, t, role, false);
    if !created {
      r := LaunchFailed(d, t, StartFailure);
      ValidIsSound(d, t);
      return;
    }
    r := AwaitSupervisor(d, t, role, nonce);
  }

  lemma NonceKeepsMine(a: Store, b: Store, t: nat, role: RoleId)
    requires Mine(a, t, role) && b.events == a.events && |b.turns| == |a.turns|
    requires forall u | 0 <= u < |a.turns| :: SameClaim(a.turns[u].rt, b.turns[u].rt) && b.turns[u].rt.after == a.turns[u].rt.after
    ensures Mine(b, t, role)
  {
  }

  method AwaitSupervisor(d: RunDirectory, t: nat, role: RoleId, nonce: Nonce) returns (r: Result<Option<Event>>)
    requires d.Valid() && Mine(d.State(), t, role) && d.turns[t].rt.nonce == Some(nonce)
    modifies d
    ensures old(d.history) <= d.history && Sound(d, t)
    ensures d.Valid() && r.Ok? && r.value.Some? ==> Recorded(d.State(), t, r.value.value)
  {
    hide Inv, Scan.ScanVerdict, Continuous, GroupClosed, TerminalFor, Sound, ActiveTurns;
    var polls: nat := *;
    var decided := false;
    while polls > 0 && !decided
      invariant d.Valid() && old(d.history) <= d.history && Mine(d.State(), t, role) && d.turns[t].rt.nonce == Some(nonce)
    {
      polls := polls - 1;
      Unlocked(d, t, role, true);
      if d.turns[t].sup.Some? && !d.turns[t].sup.value.state.SupStarting? {
        decided := true;
        if d.turns[t].sup.value.state.SupWaiting? {
          ghost var s0, h0 := d.State(), d.history;
          var profileHolds: bool := *;
          var authorized := AuthorizeLaunch(d, t, profileHolds);
          SinceThen(d, h0);
          MineLasts(s0, d.State(), t, role, true);
          if authorized.Err? { ValidIsSound(d, t); return Err(authorized.why); }
        }
      }
    }
    Unlocked(d, t, role, true);
    if d.turns[t].sup.Some? {
      r := FinalizeMine(d, t, true);
      return;
    }
    if TerminalFor(d.events, t).Some? {
      r := FinalizeMine(d, t, false);
      return;
    }
    ValidIsSound(d, t);
    if d.turns[t].runnerFile.Some? || !d.turns[t].rt.phase.Starting? || d.turns[t].rt.supervisor.Some? || d.turns[t].rt.runner.Some? {
      return Err(BadProcessChain);
    }
    r := LaunchFailed(d, t, StartFailure);
    ValidIsSound(d, t);
  }

  // ---- one round of the claim loop

  datatype Round = Retired | Waiting | Ended(r: Result<Option<Event>>) | Refused(why: Refusal)

  // run_worker, one iteration: an existing claim of the tail is finalized and
  // never launched again; only a claim made here and now is.
  method WorkerRound(d: RunDirectory, role: RoleId, nonce: Nonce) returns (round: Round, ghost turn: nat)
    requires d.Valid() && role in d.team.roles && d.team.roles[role].binding.External?
    modifies d
    ensures old(d.history) <= d.history && Sound(d, turn)
    ensures round.Retired? <==> ProjectedStatus(old(d.State())) != RunningRun || ProjectedOwner(old(d.State())) != Some(role)
    ensures d.Valid() && round.Ended? && round.r.Ok? && round.r.value.Some? ==> Recorded(d.State(), turn, round.r.value.value)
    ensures d.Valid() && round.Ended? && round.r.Ok? && round.r.value.Some? && |old(d.turns)| <= turn < |d.turns|
            && !Continuous(d.events, d.turns, d.turns[turn].rt) ==>
              round.r.value.value.body == Block(Recovery, None)
  {
    hide Inv, Scan.ScanVerdict, Continuous, GroupClosed, TerminalFor, Sound, ActiveTurns, Open, L.Later;
    turn := 0;
    Scan.InvScans(d.State());
    var scan := d.ScanJournal();
    ValidIsSound(d, turn);
    if scan.value.0 != RunningRun || scan.value.1 != Some(role) { return Retired, turn; }
    RunningTail(d.State(), role);
    var tail := d.events[|d.events| - 1];
    var claims := Claims(d.turns, tail.id);
    if u :| u in claims {
      turn := u;
      ClaimantIsMine(d.State(), u, role);
      var r := FinalizeMine(d, u, false);
      return Ended(r), turn;
    }
    var claimed := CreateBusinessTurn(d, role, ByWorker);
    ValidIsSound(d, turn);
    match claimed {
      case Ok(NotClaimed) => return Waiting, turn;
      case Ok(ClaimedTooLate) => return Waiting, turn;
      case Ok(Discontinuous(t)) =>
        turn := t;
        FreshHasNoFiles(d.State(), t);
        OpenUnended(d.State(), t);
        var r := LaunchFailed(d, t, Recovery);
        ValidIsSound(d, turn);
        return Ended(r), turn;
      case Ok(Claimed(t)) =>
        turn := t;
        ghost var s0, h0 := d.State(), d.history;
        var l := LaunchTurn(d, t, role, nonce);
        if d.Valid() {
          SinceThen(d, h0);
          L.ContinuityLasts(s0, d.State(), t);
        }
        return (match l
                case Tried(r) => Ended(r)
                case Spent => Round.Refused(NotAllowed)
                case SessionMoved => Round.Refused(BadSession)
                case ResumeNeeded => Round.Refused(BadSession)), turn;
    }
  }

  lemma FreshHasNoFiles(s: Store, t: nat)
    requires Inv(s) && t < |s.turns| && s.turns[t].rt.nonce.None?
    ensures s.turns[t].sup.None? && s.turns[t].runnerFile.None?
  {
    hide Inv;
    UnlaunchedHasNoFiles(s, t);
  }

  lemma ClaimantIsMine(s: Store, u: nat, role: RoleId)
    requires Inv(s) && |s.events| > 0 && u in Claims(s.turns, s.events[|s.events| - 1].id)
    requires s.events[|s.events| - 1].to == Some(role) && StatusAfter(s.events[|s.events| - 1]).RunningRun?
    requires role in s.team.roles && s.team.roles[role].binding.External?
    ensures u == |s.turns| - 1 && s.turns[u].rt.executor.ByWorker? && !s.turns[u].rt.phase.Finalized?
  {
    hide ProcInv, PolicyInv, SessionInv, CountInv, Accepted;
    assert Linked(s.events, s.turns[u].rt) && ValidRuntime(s.team, s.turns[u].rt);
    hide Linked;
    TailIdIs(s, u);
    if s.turns[u].rt.terminal.Some? {
      FinalizedHasTerminal(s, u);
      TerminalIsSuccessor(s, u);
    }
    UnfinalizedLast(s, u);
  }

  lemma TailIdIs(s: Store, u: nat)
    requires Chained(s.events) && |s.events| > 0 && u < |s.turns| && s.turns[u].rt.input == s.events[|s.events| - 1].id
    ensures s.turns[u].rt.input.n == |s.events|
  {
  }

  lemma UnfinalizedLast(s: Store, u: nat)
    requires EarlierClosed(s.turns) && u < |s.turns| && !s.turns[u].rt.phase.Finalized?
    ensures u == |s.turns| - 1
  {
  }
}
