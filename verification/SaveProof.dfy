/** Saving a Runtime keeps the invariant. */
module SaveProof {
  import opened Model
  import opened Options
  import opened Journal
  import opened Turns
  import opened Replay
  import opened Invariant
  import opened Stability
  import opened Sessions
  import opened Machine
  import C = CommitProof

  function Saved(turns: seq<Turn>, t: nat, rt: Runtime): seq<Turn>
    requires t < |turns|
  {
    turns[t := turns[t].(rt := rt)]
  }

  // An event that ends a Turn is the immediate successor of the Turn's input,
  // so there is only one.
  lemma OneEnding(team: Team, events: seq<Event>, turns: seq<Turn>, j: nat, k: nat, t: nat)
    requires Chained(events) && Accepted(team, events, turns)
    requires j < |events| && k < |events| && t < |turns|
    requires events[j].turn == Some(t) && events[k].turn == Some(t)
    ensures j == k && j == turns[t].rt.input.n
  {
    FirstHasNoTurn(team, events, turns);
    C.AllSteps(team, events, turns);
    hide Accepted;
    assert StepFacts(events, turns, j) && StepFacts(events, turns, k);
    assert events[j - 1].id.n == j && events[k - 1].id.n == k;
  }

  lemma FirstHasNoTurn(team: Team, events: seq<Event>, turns: seq<Turn>)
    requires Accepted(team, events, turns)
    ensures |events| > 0 ==> events[0].turn.None?
  {
    if |events| > 0 { assert StepAccepted(team, events, turns, 0); }
  }

  // The saved Runtime still agrees with the event that ended its Turn.
  lemma SavedStillFits(s: Store, t: nat, rt: Runtime, k: nat)
    requires JournalInv(s.team, s.events, s.turns) && SaveAllowedNow(s, t, rt)
    requires k < |s.events| && s.events[k].turn == Some(t)
    ensures StillFits(rt, s.events[k])
  {
    hide Accepted, ValidRuntime, AllLinked, InputsRise, EarlierClosed, Numbered, SaveKeepsProcess, Continuous, Launched,
      EvidenceAllows, KeptOnce, PhaseMoves, EvidenceGrows, OutcomeOf, InputFits;
    if rt.terminal.Some? {
      OneEnding(s.team, s.events, s.turns, rt.terminal.value.n - 1, k, t);
    }
  }

  // The other Turns' stored Runtimes agree with their events because those
  // events were accepted.
  lemma AcceptedStillFits(team: Team, events: seq<Event>, turns: seq<Turn>, k: nat)
    requires k < |events| && StepAccepted(team, events, turns, k)
    requires events[k].turn.Some? && events[k].turn.value < |turns|
    ensures StillFits(turns[events[k].turn.value].rt, events[k])
  {
  }

  lemma SaveKeepsClaims(s: Store, t: nat, rt: Runtime)
    requires t < |s.turns| && SaveAllowed(s.turns[t].rt, rt)
    ensures SameClaims(s.turns, Saved(s.turns, t, rt))
  {
  }

  lemma SaveKeepsShape(s: Store, t: nat, rt: Runtime)
    requires JournalInv(s.team, s.events, s.turns) && SaveAllowedNow(s, t, rt)
    ensures TurnsValid(s.team, Saved(s.turns, t, rt)) && AllLinked(s.events, Saved(s.turns, t, rt))
    ensures InputsRise(Saved(s.turns, t, rt)) && EarlierClosed(Saved(s.turns, t, rt))
  {
    hide Accepted, ValidRuntime, Linked;
    var turns' := Saved(s.turns, t, rt);
    SaveKeepsClaims(s, t, rt);
    forall i, j | 0 <= i < j < |turns'| ensures turns'[i].rt.input.n < turns'[j].rt.input.n {
      assert SameClaim(s.turns[i].rt, turns'[i].rt) && SameClaim(s.turns[j].rt, turns'[j].rt);
    }
  }

  lemma SaveKeepsNumbers(s: Store, t: nat, rt: Runtime)
    requires Numbered(s.turns) && t < |s.turns| && SaveAllowed(s.turns[t].rt, rt)
    ensures Numbered(Saved(s.turns, t, rt))
    ensures BusinessCount(Saved(s.turns, t, rt), |s.turns|) == BusinessCount(s.turns, |s.turns|)
  {
    var turns' := Saved(s.turns, t, rt);
    SaveKeepsClaims(s, t, rt);
    SameCount(s.turns, turns', {}, |s.turns|);
    forall u | 0 <= u < |turns'|
      ensures turns'[u].rt.business.Some? ==> turns'[u].rt.business.value == BusinessCount(turns', u) + 1
    {
      SameCount(s.turns, turns', {}, u);
      assert SameClaim(s.turns[u].rt, turns'[u].rt);
    }
  }

  lemma SaveKeepsAccepted(s: Store, t: nat, rt: Runtime)
    requires JournalInv(s.team, s.events, s.turns) && SaveAllowedNow(s, t, rt)
    ensures Accepted(s.team, s.events, Saved(s.turns, t, rt))
  {
    hide ValidRuntime, ValidateTransition, Linked;
    var turns' := Saved(s.turns, t, rt);
    SaveKeepsClaims(s, t, rt);
    SaveKeepsShape(s, t, rt);
    forall k | 0 <= k < |s.events| ensures StepAccepted(s.team, s.events, turns', k) {
      assert StepAccepted(s.team, s.events, s.turns, k);
      var e := s.events[k];
      if e.turn.Some? && e.turn.value < |s.turns| {
        if e.turn.value == t { SavedStillFits(s, t, rt, k); }
        else { AcceptedStillFits(s.team, s.events, s.turns, k); }
      }
      if e.body.Resume? { NoLateRecovery(s.team, s.events, s.turns, turns', k); }
      SaveKeepsStep(s.team, s.events, s.turns, turns', k);
    }
  }

  lemma SaveKeepsJournal(s: Store, t: nat, rt: Runtime)
    requires JournalInv(s.team, s.events, s.turns) && SaveAllowedNow(s, t, rt)
    ensures JournalInv(s.team, s.events, Saved(s.turns, t, rt))
  {
    SaveKeepsShape(s, t, rt);
    SaveKeepsNumbers(s, t, rt);
    SaveKeepsAccepted(s, t, rt);
  }

  lemma SaveKeepsProcessInv(s: Store, t: nat, rt: Runtime)
    requires ProcInv(s) && SaveAllowedNow(s, t, rt)
    ensures ProcInv(Apply(s, Save(t, rt)))
  {
    hide ValidRuntime, Linked;
    var s' := Apply(s, Save(t, rt));
    assert ProcOk(s.turns[t], t, s.dead, s.passed);
    assert rt.executor == s.turns[t].rt.executor;
    assert ProcOk(s'.turns[t], t, s'.dead, s'.passed);
    forall u | 0 <= u < |s'.turns| ensures ProcOk(s'.turns[u], u, s'.dead, s'.passed) {
      if u != t { assert ProcOk(s.turns[u], u, s.dead, s.passed); }
    }
  }

  lemma SaveKeepsPolicy(s: Store, t: nat, rt: Runtime)
    requires PolicyInv(s) && SaveAllowedNow(s, t, rt)
    ensures PolicyInv(Apply(s, Save(t, rt)))
  {
    hide ValidRuntime, Linked, FrozenFor;
    var s' := Apply(s, Save(t, rt));
    forall k | 0 <= k < |s.events| ensures EventPolicy(s.team, s.events[k], s'.turns, s.dead) {
      assert EventPolicy(s.team, s.events[k], s.turns, s.dead);
      if s.events[k].turn == Some(t) { FrozenSurvivesSave(s.turns[t], rt, s.dead); }
    }
    forall u | 0 <= u < |s.turns| && Launched(s'.turns[u].rt)
      ensures Continuous(s.events, s'.turns, s'.turns[u].rt)
    {
      ContinuousSurvives(s, t, rt, u);
    }
  }

  lemma FrozenSurvivesSave(turn: Turn, rt: Runtime, dead: set<Pid>)
    requires SameClaim(turn.rt, rt)
    ensures forall why :: FrozenFor(turn, why, dead) ==> FrozenFor(turn.(rt := rt), why, dead)
  {
  }

  lemma ContinuousSurvives(s: Store, t: nat, rt: Runtime, u: nat)
    requires PolicyInv(s) && SaveAllowedNow(s, t, rt) && u < |s.turns|
    requires Launched(Saved(s.turns, t, rt)[u].rt)
    ensures Continuous(s.events, Saved(s.turns, t, rt), Saved(s.turns, t, rt)[u].rt)
  {
    hide ValidRuntime, Linked, EventPolicy;
    var r := Saved(s.turns, t, rt)[u].rt;
    assert SameClaim(s.turns[u].rt, r);
    assert Continuous(s.events, s.turns, r) by {
      if Launched(s.turns[u].rt) { assert Continuous(s.events, s.turns, s.turns[u].rt); }
    }
  }

  // A write that keeps the claims and the Sessions, and takes no reported
  // Session ref back, keeps what is known of Sessions.
  lemma SessionsSurvive(s: Store, s': Store)
    requires SessionInv(s) && s'.team == s.team && s'.events == s.events && s'.sessions == s.sessions && s.dead <= s'.dead
    requires |s'.turns| == |s.turns|
    requires forall u | 0 <= u < |s.turns| ::
               && SameClaim(s.turns[u].rt, s'.turns[u].rt) && RefKept(s.turns[u], s'.turns[u])
               && SettledOnce(s', u) && LaunchOk(s', u)
    ensures SessionInv(s')
  {
    hide InStep, LaunchOk, LaunchGeneration;
    forall role | role in s.sessions ensures SessionOk(s.team, s'.turns, role, s.sessions[role]) {
      assert SessionOk(s.team, s.turns, role, s.sessions[role]);
    }
    forall u | 0 <= u < |s'.turns| ensures StepHeld(s', u) && ClaimHeld(s', u) {
      assert StepHeld(s, u) && ClaimHeld(s, u);
      SameNewest(s, s', u);
    }
    forall k | 0 <= k < |s.events| ensures RouteHeld(s', s.events[k]) {
      assert RouteHeld(s, s.events[k]);
      if s.events[k].turn.Some? && s.events[k].turn.value < |s.turns| { SameNewest(s, s', s.events[k].turn.value); }
    }
  }

  lemma SameTurnsSessions(s: Store, s': Store)
    requires SessionInv(s) && s' == s.(clock := s'.clock, dead := s'.dead, passed := s'.passed) && s.dead <= s'.dead
    ensures SessionInv(s')
  {
    hide StepHeld, ClaimHeld, RouteHeld, SessionOk;
    forall u | 0 <= u < |s.turns| ensures SettledOnce(s', u) && LaunchOk(s', u) {
      assert SettledOnce(s, u) && LaunchOk(s, u);
      SameNewest(s, s', u);
    }
    SessionsSurvive(s, s');
  }

  predicate RefKept(before: Turn, after: Turn) {
    before.sup.Some? ==>
      && after.sup.Some? && after.sup.value.pid == before.sup.value.pid
      && KeptOnce(before.sup.value.evidence.ref, after.sup.value.evidence.ref)
  }

  lemma SameNewest(s: Store, s': Store, t: nat)
    requires t < |s.turns| == |s'.turns|
    requires forall u | 0 <= u < |s.turns| :: SameClaim(s.turns[u].rt, s'.turns[u].rt)
    ensures Newest(s, t) <==> Newest(s', t)
  {
    assert SameClaim(s.turns[t].rt, s'.turns[t].rt);
    if Newest(s, t) {
      forall u | t < u < |s'.turns| ensures s'.turns[u].rt.role != s'.turns[t].rt.role {
        assert SameClaim(s.turns[u].rt, s'.turns[u].rt);
      }
    }
  }

  lemma SaveKeepsSessions(s: Store, t: nat, rt: Runtime)
    requires SessionInv(s) && SaveAllowedNow(s, t, rt)
    ensures SessionInv(Apply(s, Save(t, rt)))
  {
    hide ValidRuntime, Linked, EndedBy, SaveKeepsProcess, Continuous, SettledOnce, LaunchOk, RefKept, SessionInv;
    var s' := Apply(s, Save(t, rt));
    SaveKeepsClaims(s, t, rt);
    forall u | 0 <= u < |s.turns|
      ensures SameClaim(s.turns[u].rt, s'.turns[u].rt) && RefKept(s.turns[u], s'.turns[u])
      ensures SettledOnce(s', u) && LaunchOk(s', u)
    {
      SaveKeepsSettled(s, t, rt, u);
      SaveKeepsLaunch(s, t, rt, u);
    }
    SessionsSurvive(s, s');
  }

  lemma SaveKeepsSettled(s: Store, t: nat, rt: Runtime, u: nat)
    requires SessionInv(s) && SaveAllowedNow(s, t, rt) && u < |s.turns|
    ensures
      var s' := Apply(s, Save(t, rt));
      SameClaim(s.turns[u].rt, s'.turns[u].rt) && RefKept(s.turns[u], s'.turns[u]) && SettledOnce(s', u)
  {
    hide ValidRuntime, Linked, EndedBy, SaveKeepsProcess, Continuous, Newest;
    var s' := Apply(s, Save(t, rt));
    SaveKeepsClaims(s, t, rt);
    SameNewest(s, s', u);
    assert SettledOnce(s, u);
  }

  lemma SaveKeepsLaunch(s: Store, t: nat, rt: Runtime, u: nat)
    requires SessionInv(s) && SaveAllowedNow(s, t, rt) && u < |s.turns|
    ensures LaunchOk(Apply(s, Save(t, rt)), u)
  {
    hide ValidRuntime, Linked, EndedBy, SaveKeepsProcess, Continuous, SettledBefore, Newest, StepHeld, ClaimHeld, RouteHeld,
      PhaseMoves, EvidenceGrows;
    var s' := Apply(s, Save(t, rt));
    SaveKeepsClaims(s, t, rt);
    SameNewest(s, s', u);
    assert LaunchOk(s, u);
    SaveKeepsStart(s, t, rt, u);
  }

  lemma SaveKeepsStart(s: Store, t: nat, rt: Runtime, u: nat)
    requires SessionInv(s) && SaveAllowedNow(s, t, rt) && u < |s.turns|
    ensures StartedByResume(Apply(s, Save(t, rt)), u)
  {
    hide ValidRuntime, Linked, EndedBy, SaveKeepsProcess, Continuous, SettledBefore, Newest, StepHeld, ClaimHeld, RouteHeld,
      PhaseMoves, EvidenceGrows;
    var s' := Apply(s, Save(t, rt));
    SaveKeepsClaims(s, t, rt);
    assert LaunchOk(s, u);
    assert forall v | 0 <= v < |s.turns| :: SameClaim(s.turns[v].rt, s'.turns[v].rt);
    if u == t && rt.nonce.Some? && s.turns[t].rt.nonce.None? && OfRole(s, t) {
      var role := s.turns[t].rt.role.value;
      if role in s.sessions {
        assert SessionOk(s.team, s.turns, role, s.sessions[role]);
        assert Begins(s'.turns[s.sessions[role].created].rt, rt) || Begins(s'.turns[t].rt, rt)
               || !s.team.roles[role].policy.Resumable? || rt.generation.value <= 1;
      }
    } else if StartedByResume(s, u) && OfRole(s, u) && s.turns[u].rt.nonce.Some?
              && s.team.roles[s.turns[u].rt.role.value].policy.Resumable? && s.turns[u].rt.generation.value > 1 {
      var v :| 0 <= v < |s.turns| && Begins(s.turns[v].rt, s.turns[u].rt);
      assert Begins(s'.turns[v].rt, s'.turns[u].rt);
    }
  }

  lemma SaveKeepsCount(s: Store, t: nat, rt: Runtime)
    requires CountInv(s) && Numbered(s.turns) && SaveAllowedNow(s, t, rt)
    ensures CountInv(Apply(s, Save(t, rt)))
  {
    hide ValidRuntime, Linked;
    var turns' := Saved(s.turns, t, rt);
    SaveKeepsNumbers(s, t, rt);
    SaveKeepsClaims(s, t, rt);
    forall k | 0 <= k < |s.events| ensures Claims(turns', s.events[k].id) == Claims(s.turns, s.events[k].id) {
      SameClaimSets(s.turns, turns', s.events[k].id);
    }
  }
}
