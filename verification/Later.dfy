/** What a later state still shows of an earlier one, however the processes interleave. */
module Later {
  import opened Model
  import opened Options
  import opened Journal
  import opened Turns
  import opened Invariant
  import opened Sessions
  import opened Machine

  predicate TurnLater(a: Turn, b: Turn) {
    && SameClaim(a.rt, b.rt)
    && PhaseMoves(a.rt.phase, b.rt.phase)
    && KeptOnce(a.rt.nonce, b.rt.nonce)
    && KeptOnce(a.rt.supervisor, b.rt.supervisor)
    && KeptOnce(a.rt.runner, b.rt.runner)
    && KeptOnce(a.rt.after, b.rt.after)
    && KeptOnce(a.rt.terminal, b.rt.terminal)
    && KeptOnce(a.rt.outcome, b.rt.outcome)
    && KeptOnce(a.runnerFile, b.runnerFile)
    && KeptOnce(a.auth, b.auth)
    && KeptOnce(a.afterFile, b.afterFile)
    && KeptOnce(a.outbox, b.outbox)
    && (a.sup.Some? ==> b.sup.Some? && b.sup.value.pid == a.sup.value.pid)
  }

  predicate Later(a: Store, b: Store) {
    && b.team == a.team
    && a.events <= b.events
    && |a.turns| <= |b.turns|
    && (forall t | 0 <= t < |a.turns| :: TurnLater(a.turns[t], b.turns[t]))
    && (forall role | role in a.sessions ::
          role in b.sessions && a.sessions[role].generation <= b.sessions[role].generation)
    && a.clock <= b.clock
    && a.dead <= b.dead
    && a.passed <= b.passed
  }

  lemma WriteIsLater(s: Store, w: Write)
    requires Permitted(s, w)
    ensures Later(s, Apply(s, w))
  {
    hide CommitAllowed, ClaimAllowed, SessionAllowed, GateOpens, ValidSnapshot, Linked, EndedBy, ValidRuntime, Continuous,
      SaveKeepsProcess, EvidenceGrows, TurnLater;
    match w {
      case Save(t, rt) => OneTurnLater(s, t, s.turns[t].(rt := rt));
      case PutSupervisor(t, sn) => OneTurnLater(s, t, s.turns[t].(sup := Some(sn)));
      case PutRunner(t, pid) => OneTurnLater(s, t, s.turns[t].(runnerFile := Some(pid)));
      case PutAuthorization(t, auth) => OneTurnLater(s, t, s.turns[t].(auth := Some(auth)));
      case PutAfter(t, tree) => OneTurnLater(s, t, s.turns[t].(afterFile := Some(tree)));
      case PutOutbox(t, action) => OneTurnLater(s, t, s.turns[t].(outbox := Some(action)));
      case PutSession(t, session) =>
        SameTurnsLater(s.turns);
        GenerationRises(s, t, session);
      case _ => SameTurnsLater(s.turns);
    }
  }

  lemma GenerationRises(s: Store, t: nat, session: Session)
    requires SessionAllowed(s, t, session)
    ensures t < |s.turns| && s.turns[t].rt.role.Some?
    ensures s.turns[t].rt.role.value in s.sessions ==> s.sessions[s.turns[t].rt.role.value].generation <= session.generation
  {
  }

  lemma SameTurnsLater(turns: seq<Turn>)
    ensures forall t | 0 <= t < |turns| :: TurnLater(turns[t], turns[t])
  {
  }

  lemma OneTurnLater(s: Store, t: nat, turn: Turn)
    requires t < |s.turns| && SameClaim(s.turns[t].rt, turn.rt) && PhaseMoves(s.turns[t].rt.phase, turn.rt.phase)
    requires var a, b := s.turns[t].rt, turn.rt;
      && KeptOnce(a.nonce, b.nonce) && KeptOnce(a.supervisor, b.supervisor) && KeptOnce(a.runner, b.runner)
      && KeptOnce(a.after, b.after) && KeptOnce(a.terminal, b.terminal) && KeptOnce(a.outcome, b.outcome)
    requires KeptOnce(s.turns[t].runnerFile, turn.runnerFile) && KeptOnce(s.turns[t].auth, turn.auth)
    requires KeptOnce(s.turns[t].afterFile, turn.afterFile) && KeptOnce(s.turns[t].outbox, turn.outbox)
    requires s.turns[t].sup.Some? ==> turn.sup.Some? && turn.sup.value.pid == s.turns[t].sup.value.pid
    ensures Later(s, s.(turns := s.turns[t := turn]))
  {
    SameTurnsLater(s.turns);
  }

  lemma LaterSelf(s: Store)
    ensures Later(s, s)
  {
  }

  lemma LaterTrans(a: Store, b: Store, c: Store)
    requires Later(a, b) && Later(b, c)
    ensures Later(a, c)
  {
    forall t | 0 <= t < |a.turns| ensures TurnLater(a.turns[t], c.turns[t]) {
      assert TurnLater(a.turns[t], b.turns[t]) && TurnLater(b.turns[t], c.turns[t]);
    }
  }

  lemma LaterTurn(a: Store, b: Store, t: nat)
    requires Later(a, b) && t < |a.turns|
    ensures t < |b.turns| && TurnLater(a.turns[t], b.turns[t]) && a.events <= b.events
  {
  }

  // The continuity a claim established is still there when the Worker launches.
  lemma ContinuityLasts(a: Store, b: Store, t: nat)
    requires Later(a, b) && t < |a.turns| && Continuous(a.events, a.turns, a.turns[t].rt)
    ensures Continuous(b.events, b.turns, b.turns[t].rt)
  {
    var input := a.events[a.turns[t].rt.input.n - 1];
    assert TurnLater(a.turns[t], b.turns[t]);
    assert b.events[a.turns[t].rt.input.n - 1] == input;
    if input.body.Handoff? {
      assert TurnLater(a.turns[input.turn.value], b.turns[input.turn.value]);
    }
  }

  // Continuity reads the journal and the claims only.
  lemma SameFacts(a: Store, b: Store, t: nat)
    requires b.events == a.events && |b.turns| == |a.turns| && t < |a.turns|
    requires forall u | 0 <= u < |a.turns| :: b.turns[u].rt.after == a.turns[u].rt.after
    requires b.turns[t].rt.before == a.turns[t].rt.before && b.turns[t].rt.input == a.turns[t].rt.input
    ensures Continuous(a.events, a.turns, a.turns[t].rt) ==> Continuous(b.events, b.turns, b.turns[t].rt)
  {
  }
}
