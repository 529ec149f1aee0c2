/** Writes of process files, Sessions and the environment keep the invariant. */
module ProcessProof {
  import opened Model
  import opened Options
  import opened Journal
  import opened Turns
  import opened Replay
  import opened Invariant
  import opened Stability
  import opened Sessions
  import opened Machine
  import S = SaveProof

  // ---- writes that leave every Runtime alone

  predicate SameRuntimes(turns: seq<Turn>, turns': seq<Turn>) {
    |turns| == |turns'| && forall t | 0 <= t < |turns| :: turns'[t].rt == turns[t].rt
  }

  lemma SameRuntimesSteps(team: Team, events: seq<Event>, turns: seq<Turn>, turns': seq<Turn>)
    requires SameRuntimes(turns, turns') && Accepted(team, events, turns)
    ensures Accepted(team, events, turns')
  {
    hide ValidateTransition;
    forall k | 0 <= k < |events| ensures StepAccepted(team, events, turns', k) {
      assert StepAccepted(team, events, turns, k);
      if events[k].turn.Some? && events[k].turn.value < |turns| { S.AcceptedStillFits(team, events, turns, k); }
      if events[k].body.Resume? {
        ResumeGateOpen(team, events, turns, k);
        SameGate(turns, turns', events[k].id.n);
      }
      SaveKeepsStep(team, events, turns, turns', k);
    }
  }

  lemma ResumeGateOpen(team: Team, events: seq<Event>, turns: seq<Turn>, k: nat)
    requires k < |events| && StepAccepted(team, events, turns, k) && events[k].body.Resume?
    ensures !RecoveryGateClosed(turns, events[k].id.n)
  {
  }

  lemma SameGate(turns: seq<Turn>, turns': seq<Turn>, n: nat)
    requires SameRuntimes(turns, turns') && !RecoveryGateClosed(turns, n)
    ensures !RecoveryGateClosed(turns', n)
  {
    forall t | 0 <= t < |turns'| ensures !(turns'[t].rt.phase.RecoveryRequired? && turns'[t].rt.input.n < n) {
      assert turns'[t].rt == turns[t].rt;
    }
  }

  lemma SameRuntimesJournal(team: Team, events: seq<Event>, turns: seq<Turn>, turns': seq<Turn>)
    requires SameRuntimes(turns, turns') && JournalInv(team, events, turns)
    ensures JournalInv(team, events, turns')
    ensures BusinessCount(turns', |turns'|) == BusinessCount(turns, |turns|)
    ensures forall k | 0 <= k < |events| :: Claims(turns', events[k].id) == Claims(turns, events[k].id)
  {
    SameRuntimesSteps(team, events, turns, turns');
    hide Accepted, ValidRuntime, Linked;
    assert SameClaims(turns, turns');
    SameCount(turns, turns', {}, |turns|);
    forall t | 0 <= t < |turns'|
      ensures turns'[t].rt.business.Some? ==> turns'[t].rt.business.value == BusinessCount(turns', t) + 1
    {
      SameCount(turns, turns', {}, t);
    }
    forall k | 0 <= k < |events| ensures Claims(turns', events[k].id) == Claims(turns, events[k].id) {
      SameClaimSets(turns, turns', events[k].id);
    }
  }

  // One Turn's process files change; its Runtime does not.
  predicate FilesOnly(s: Store, s': Store, t: nat) {
    && t < |s.turns| && |s'.turns| == |s.turns|
    && s' == s.(turns := s'.turns)
    && s'.turns[t].rt == s.turns[t].rt
    && forall u | 0 <= u < |s.turns| && u != t :: s'.turns[u] == s.turns[u]
  }

  // A finished snapshot whose Supervisor is gone never changes again.
  predicate FrozenKept(before: Turn, after: Turn, dead: set<Pid>) {
    before.sup.Some? && before.sup.value.state.SupFinished? && before.sup.value.pid in dead ==> after.sup == before.sup
  }

  // The files of a finalized Turn only change when the finalizer closes a
  // stopped snapshot.
  predicate ClosedAtMost(before: Turn, after: Turn) {
    before.rt.phase.Finalized? && before.rt.executor.ByWorker? ==>
      after.sup == before.sup
      || (before.sup.Some? && before.sup.value.state.SupStopping? && after.sup.Some?
          && after.sup.value.evidence == before.sup.value.evidence)
  }

  lemma FilesKeepInv(s: Store, s': Store, t: nat)
    requires Inv(s) && FilesOnly(s, s', t)
    requires ProcOk(s'.turns[t], t, s.dead, s.passed)
    requires FrozenKept(s.turns[t], s'.turns[t], s.dead) && S.RefKept(s.turns[t], s'.turns[t])
    requires ClosedAtMost(s.turns[t], s'.turns[t])
    ensures Inv(s')
  {
    hide JournalInv, ProcInv, PolicyInv, SessionInv, ProcOk, FrozenKept, S.RefKept, ClosedAtMost;
    SameRuntimesJournal(s.team, s.events, s.turns, s'.turns);
    FilesKeepProc(s, s', t);
    FilesKeepPolicy(s, s', t);
    FilesKeepSessions(s, s', t);
  }

  lemma FilesKeepProc(s: Store, s': Store, t: nat)
    requires ProcInv(s) && FilesOnly(s, s', t) && ProcOk(s'.turns[t], t, s.dead, s.passed)
    ensures ProcInv(s')
  {
    forall u | 0 <= u < |s'.turns| ensures ProcOk(s'.turns[u], u, s'.dead, s'.passed) {
      if u != t { assert ProcOk(s.turns[u], u, s.dead, s.passed); }
    }
  }

  lemma FilesKeepPolicy(s: Store, s': Store, t: nat)
    requires PolicyInv(s) && FilesOnly(s, s', t) && FrozenKept(s.turns[t], s'.turns[t], s.dead)
    ensures PolicyInv(s')
  {
    forall k | 0 <= k < |s.events| ensures EventPolicy(s.team, s.events[k], s'.turns, s.dead) {
      assert EventPolicy(s.team, s.events[k], s.turns, s.dead);
    }
    forall u | 0 <= u < |s.turns| && Launched(s'.turns[u].rt)
      ensures Continuous(s.events, s'.turns, s'.turns[u].rt)
    {
      assert s'.turns[u].rt == s.turns[u].rt;
      assert Continuous(s.events, s.turns, s.turns[u].rt);
    }
  }

  lemma FilesKeepSessions(s: Store, s': Store, t: nat)
    requires SessionInv(s) && FilesOnly(s, s', t) && S.RefKept(s.turns[t], s'.turns[t]) && ClosedAtMost(s.turns[t], s'.turns[t])
    ensures SessionInv(s')
  {
    hide StepHeld, ClaimHeld, RouteHeld;
    assert forall u | 0 <= u < |s.turns| :: s'.turns[u].rt == s.turns[u].rt;
    forall u | 0 <= u < |s.turns|
      ensures SameClaim(s.turns[u].rt, s'.turns[u].rt) && S.RefKept(s.turns[u], s'.turns[u])
      ensures SettledOnce(s', u) && LaunchOk(s', u)
    {
      assert SettledOnce(s, u) && LaunchOk(s, u);
      S.SameNewest(s, s', u);
    }
    S.SessionsSurvive(s, s');
  }

  lemma SupervisorKeepsProcOk(s: Store, t: nat, sn: Snapshot)
    requires SupervisorAllowed(s, t, sn) && ProcOk(s.turns[t], t, s.dead, s.passed)
    ensures ProcOk(s.turns[t].(sup := Some(sn)), t, s.dead, s.passed)
    ensures FrozenKept(s.turns[t], s.turns[t].(sup := Some(sn)), s.dead)
    ensures S.RefKept(s.turns[t], s.turns[t].(sup := Some(sn))) && ClosedAtMost(s.turns[t], s.turns[t].(sup := Some(sn)))
  {
  }

  lemma RunnerKeepsProcOk(turn: Turn, t: nat, pid: Pid, dead: set<Pid>, passed: set<(nat, Pid)>)
    requires turn.runnerFile.None? && turn.rt.executor.ByWorker? && turn.rt.nonce.Some?
    requires ProcOk(turn, t, dead, passed)
    ensures ProcOk(turn.(runnerFile := Some(pid)), t, dead, passed)
  {
  }

  lemma AuthorizationKeepsProcOk(s: Store, t: nat, auth: Authorization)
    requires AuthorizationAllowed(s, t, auth) && ProcOk(s.turns[t], t, s.dead, s.passed)
    ensures ProcOk(s.turns[t].(auth := Some(auth)), t, s.dead, s.passed)
  {
  }

  lemma FileWriteKeepsInv(s: Store, w: Write)
    requires Inv(s) && Permitted(s, w)
    requires w.PutSupervisor? || w.PutRunner? || w.PutAuthorization? || w.PutAfter? || w.PutOutbox?
    ensures Inv(Apply(s, w))
  {
    hide JournalInv, PolicyInv, SessionInv, CountInv, ClockInv;
    var s' := Apply(s, w);
    assert ProcOk(s.turns[w.t], w.t, s.dead, s.passed);
    hide ProcInv, ProcOk, SupervisorAllowed, AuthorizationAllowed;
    match w {
      case PutSupervisor(t, sn) => SupervisorKeepsProcOk(s, t, sn);
      case PutRunner(t, pid) => RunnerKeepsProcOk(s.turns[t], t, pid, s.dead, s.passed);
      case PutAuthorization(t, auth) => AuthorizationKeepsProcOk(s, t, auth);
      case PutAfter(t, _) => SameProcOk(s.turns[t], s'.turns[t], t, s.dead, s.passed);
      case PutOutbox(t, _) => SameProcOk(s.turns[t], s'.turns[t], t, s.dead, s.passed);
    }
    FilesKeepInv(s, s', w.t);
  }

  lemma SameProcOk(turn: Turn, turn': Turn, t: nat, dead: set<Pid>, passed: set<(nat, Pid)>)
    requires turn' == turn.(afterFile := turn'.afterFile, outbox := turn'.outbox)
    requires ProcOk(turn, t, dead, passed)
    ensures ProcOk(turn', t, dead, passed)
  {
  }

  // ---- the Runner's gate and the environment

  lemma GateKeepsInv(s: Store, t: nat, pid: Pid)
    requires Inv(s) && GateOpens(s, t, pid)
    ensures Inv(Apply(s, PassGate(t, pid)))
  {
    hide JournalInv, PolicyInv, SessionInv, CountInv;
    var s' := Apply(s, PassGate(t, pid));
    forall u | 0 <= u < |s.turns| ensures ProcOk(s'.turns[u], u, s'.dead, s'.passed) {
      assert ProcOk(s.turns[u], u, s.dead, s.passed);
    }
    assert ProcInv(s');
    assert PolicyInv(s') && SessionInv(s') && CountInv(s') by { SameButPassed(s, s'); }
  }

  lemma SameButPassed(s: Store, s': Store)
    requires s' == s.(passed := s'.passed) && PolicyInv(s) && SessionInv(s) && CountInv(s)
    ensures PolicyInv(s') && SessionInv(s') && CountInv(s')
  {
    S.SameTurnsSessions(s, s');
    hide SessionInv;
  }

  lemma TickKeepsInv(s: Store, now: int)
    requires Inv(s) && s.clock <= now
    ensures Inv(Apply(s, Tick(now)))
  {
    hide JournalInv, SessionInv;
    S.SameTurnsSessions(s, Apply(s, Tick(now)));
  }

  lemma DieKeepsInv(s: Store, pid: Pid)
    requires Inv(s)
    ensures Inv(Apply(s, Die(pid)))
  {
    hide JournalInv, SessionInv;
    S.SameTurnsSessions(s, Apply(s, Die(pid)));
    var s' := Apply(s, Die(pid));
    forall t | 0 <= t < |s.turns| ensures ProcOk(s'.turns[t], t, s'.dead, s'.passed) {
      assert ProcOk(s.turns[t], t, s.dead, s.passed);
    }
    forall k | 0 <= k < |s.events| ensures EventPolicy(s'.team, s'.events[k], s'.turns, s'.dead) {
      assert EventPolicy(s.team, s.events[k], s.turns, s.dead);
    }
    assert PolicyInv(s') by { assert forall t | 0 <= t < |s.turns| :: Launched(s.turns[t].rt) ==> Continuous(s.events, s.turns, s.turns[t].rt); }
  }

  // ---- sessions

  lemma SessionKeepsInv(s: Store, t: nat, session: Session)
    requires Inv(s) && SessionAllowed(s, t, session)
    ensures Inv(Apply(s, PutSession(t, session)))
  {
    hide ProcInv, PolicyInv, SessionInv, CountInv, SessionAllowed;
    hide Chained, TurnsValid, AllLinked, InputsRise, EarlierClosed, Numbered, Accepted;
    assert Addressed(s, PutSession(t, session)) by { SessionAddresses(s, t, session); }
    SupervisedIsLaunched(s, t, session);
    SessionKeepsSessions(s, t, session);
    SameButSessions(s, Apply(s, PutSession(t, session)));
  }

  lemma SupervisedIsLaunched(s: Store, t: nat, session: Session)
    requires ProcInv(s) && SessionAllowed(s, t, session)
    ensures t < |s.turns| && s.turns[t].rt.nonce.Some?
  {
    hide CommitSession, MarkUnavailable, RecordCandidateFailure;
    assert ProcOk(s.turns[t], t, s.dead, s.passed);
  }

  lemma SessionAddresses(s: Store, t: nat, session: Session)
    requires SessionAllowed(s, t, session)
    ensures Addressed(s, PutSession(t, session))
  {
    hide CommitSession, MarkUnavailable, RecordCandidateFailure;
  }

  lemma SameButSessions(s: Store, s': Store)
    requires s' == s.(sessions := s'.sessions) && ProcInv(s) && PolicyInv(s) && CountInv(s)
    ensures ProcInv(s') && PolicyInv(s') && CountInv(s')
  {
  }

  // What any of the three Session operations writes.
  lemma SessionShape(s: Store, t: nat, session: Session)
    requires SessionAllowed(s, t, session)
    ensures session.generation == s.turns[t].rt.generation.value && session.updated == t
    ensures
      var current := Lookup(s.sessions, s.turns[t].rt.role.value);
      session.created == t || (current.Some? && session.created == current.value.created
                               && current.value.generation == session.generation)
  {
  }

  lemma SessionWrittenOk(s: Store, t: nat, session: Session)
    requires TurnsValid(s.team, s.turns) && SessionInv(s) && SessionAllowed(s, t, session) && s.turns[t].rt.nonce.Some?
    ensures SessionOk(s.team, s.turns, s.turns[t].rt.role.value, session)
  {
    hide SettledOnce, RouteHeld, ClaimHeld;
    SessionShape(s, t, session);
    assert StepHeld(s, t) && LaunchOk(s, t);
    hide StartedByResume;
    var role := s.turns[t].rt.role.value;
    assert ValidRuntime(s.team, s.turns[t].rt);
    if role in s.sessions { assert SessionOk(s.team, s.turns, role, s.sessions[role]); }
  }

  lemma SessionKeepsSessions(s: Store, t: nat, session: Session)
    requires TurnsValid(s.team, s.turns) && SessionInv(s) && SessionAllowed(s, t, session) && s.turns[t].rt.nonce.Some?
    ensures SessionInv(Apply(s, PutSession(t, session)))
  {
    hide TurnsValid, SessionOk, StepHeld, ClaimHeld, LaunchOk, SettledOnce, RouteHeld;
    var s' := Apply(s, PutSession(t, session));
    SessionWrittenOk(s, t, session);
    SessionAddresses(s, t, session);
    hide SessionAllowed;
    forall u | 0 <= u < |s'.turns| ensures StepHeld(s', u) && ClaimHeld(s', u) && LaunchOk(s', u) && SettledOnce(s', u) {
      WrittenHeld(s, t, session, u);
    }
    forall k | 0 <= k < |s.events| ensures RouteHeld(s', s.events[k]) {
      WrittenRoute(s, t, session, s.events[k]);
    }
  }

  lemma OneNewest(s: Store, t: nat, u: nat)
    requires t < |s.turns| && u < |s.turns| && Newest(s, t) && Newest(s, u) && s.turns[t].rt.role == s.turns[u].rt.role
    ensures t == u
  {
  }

  lemma WrittenHeld(s: Store, t: nat, session: Session, u: nat)
    requires SessionAllowed(s, t, session) && u < |s.turns|
    requires StepHeld(s, u) && ClaimHeld(s, u) && LaunchOk(s, u) && SettledOnce(s, u)
    ensures StepHeld(Apply(s, PutSession(t, session)), u) && ClaimHeld(Apply(s, PutSession(t, session)), u)
    ensures LaunchOk(Apply(s, PutSession(t, session)), u) && SettledOnce(Apply(s, PutSession(t, session)), u)
  {
    SessionShape(s, t, session);
    hide CommitSession, MarkUnavailable, RecordCandidateFailure, LaunchGeneration, Begins;
    var s' := Apply(s, PutSession(t, session));
    assert s'.turns == s.turns && s'.team == s.team;
    assert Newest(s', u) <==> Newest(s, u);
    if s.turns[u].rt.role == s.turns[t].rt.role && Newest(s, u) { OneNewest(s, t, u); }
    hide Newest;
  }

  // A Turn that handed the token on has recorded its Session and has no living
  // Supervisor: what it may still write is what is there.
  lemma WrittenRoute(s: Store, t: nat, session: Session, e: Event)
    requires SessionInv(s) && SessionAllowed(s, t, session) && RouteHeld(s, e)
    ensures RouteHeld(Apply(s, PutSession(t, session)), e)
  {
    hide StepHeld, ClaimHeld, LaunchOk, SettledOnce;
    var s' := Apply(s, PutSession(t, session));
    SessionShape(s, t, session);
    if e.turn.Some? && e.turn.value < |s.turns| {
      var u := e.turn.value;
      assert Newest(s', u) <==> Newest(s, u);
      if s.turns[u].rt.role == s.turns[t].rt.role && Newest(s, u) {
        OneNewest(s, t, u);
        if s.turns[t].rt.role.value in s.sessions {
          assert SessionOk(s.team, s.turns, s.turns[t].rt.role.value, s.sessions[s.turns[t].rt.role.value]);
        }
      }
    }
  }
}
