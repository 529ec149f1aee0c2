/** When a save that records how a Turn ended is a permitted write. */
module FinalSaves {
  import opened Model
  import opened Options
  import opened Journal
  import opened Turns
  import opened Replay
  import opened Invariant
  import opened Machine
  import opened Endings
  import opened Guards
  import C = CommitProof
  import S = SaveProof

  lemma InputFitsTurn(s: Store, t: nat)
    requires Inv(s) && t < |s.turns|
    ensures 1 <= s.turns[t].rt.input.n <= |s.events|
    ensures InputFits(s.turns[t].rt, s.events[s.turns[t].rt.input.n - 1])
  {
    hide ProcInv, PolicyInv, SessionInv, CountInv, ValidRuntime, Accepted, InputFits, TerminalFits;
    assert Linked(s.events, s.turns[t].rt);
  }

  lemma StepFactsAt(s: Store, k: nat)
    requires Inv(s) && 0 < k < |s.events|
    ensures StepFacts(s.events, s.turns, k)
  {
    hide ProcInv, PolicyInv, SessionInv, CountInv, ValidRuntime, StepAccepted, Linked, StepFacts;
    C.AllSteps(s.team, s.events, s.turns);
  }

  // A Resume ends an Origin management Turn and nothing else does except a Cancel.
  lemma EndingKind(s: Store, t: nat, e: Event)
    requires Inv(s) && t < |s.turns| && TerminalFor(s.events, t) == Some(e)
    ensures e.turn == Some(t) && !e.body.Kickoff?
    ensures 1 <= e.id.n <= |s.events| && s.events[e.id.n - 1] == e
    ensures if s.turns[t].rt.business.None? then e.body.Resume? || e.body.Cancel? else !e.body.Resume?
  {
    hide Inv;
    TerminalIsSuccessor(s, t);
    InputFitsTurn(s, t);
    KickoffHasNoTurn(s);
    var n := s.turns[t].rt.input.n;
    StepFactsAt(s, n);
    NamedAt(s, n);
  }

  lemma NamedAt(s: Store, k: nat)
    requires Inv(s) && k < |s.events|
    ensures s.events[k].id == EventId(s.events[k].body.Kind(), k + 1)
  {
    hide ProcInv, PolicyInv, SessionInv, CountInv, TurnsValid, AllLinked, Accepted;
  }

  lemma EndingLinks(s: Store, t: nat, rt: Runtime, e: Event)
    requires Inv(s) && t < |s.turns| && TerminalFor(s.events, t) == Some(e)
    requires SameClaim(s.turns[t].rt, rt)
    requires rt.terminal == Some(e.id) && rt.outcome == Some(OutcomeOf(e.body))
    ensures Linked(s.events, rt)
  {
    hide Inv, ValidRuntime;
    EndingKind(s, t, e);
    InputFitsTurn(s, t);
    InputPosition(s, t);
    TurnNamed(s, t);
  }

  lemma TurnNamed(s: Store, t: nat)
    requires Inv(s) && t < |s.turns|
    ensures s.turns[t].rt.turn == t && ValidRuntime(s.team, s.turns[t].rt)
  {
    hide ProcInv, PolicyInv, SessionInv, CountInv, Accepted, Linked, ValidRuntime;
  }

  // An unended Turn stays linked as long as its save records no ending.
  lemma OpenLinks(s: Store, t: nat, rt: Runtime)
    requires Inv(s) && t < |s.turns| && SameClaim(s.turns[t].rt, rt) && rt.terminal.None?
    ensures Linked(s.events, rt)
  {
    hide ProcInv, PolicyInv, SessionInv, CountInv, ValidRuntime, Accepted;
    assert Linked(s.events, s.turns[t].rt);
  }

  // The saved process evidence is the Supervisor's, and exactly that once the
  // Supervisor has reported the end of the process group.
  predicate FromSnapshot(turn: Turn, rt: Runtime) {
    match turn.sup
    case None => rt.supervisor.None? && rt.runner.None? && Continues(None, rt)
    case Some(sn) =>
      && rt.supervisor == Some(sn.pid)
      && (rt.runner.Some? ==> turn.runnerFile == rt.runner)
      && rt.evidence == sn.evidence && KeptOnce(rt.ending.exitCode, sn.exitCode)
      && (sn.state.SupFinished? ==> rt.ending == Ending(sn.exitCode, sn.kind, Some(true)))
  }

  lemma EndingEvidence(s: Store, t: nat, rt: Runtime)
    requires Inv(s) && t < |s.turns| && rt.executor == s.turns[t].rt.executor && FromSnapshot(s.turns[t], rt)
    ensures EndedBy(s.events, t, rt)
  {
    hide JournalInv, ProcInv, SessionInv, CountInv;
    forall k | 0 <= k < |s.events| && s.events[k].turn == Some(t) && s.events[k].body.Handoff?
      ensures EvidenceAllows(rt, s.events[k].body.why)
    {
      assert EventPolicy(s.team, s.events[k], s.turns, s.dead);
    }
  }

  lemma EndingSaveAllowed(s: Store, t: nat, rt: Runtime, e: Event)
    requires Inv(s) && t < |s.turns| && s.turns[t].rt.executor.ByWorker?
    requires ValidRuntime(s.team, rt) && SaveAllowed(s.turns[t].rt, rt)
    requires TerminalFor(s.events, t) == Some(e)
    requires rt.terminal == Some(e.id) && rt.outcome == Some(OutcomeOf(e.body))
    requires rt.nonce == s.turns[t].rt.nonce && Ended(rt.phase)
    requires FromSnapshot(s.turns[t], rt)
    requires rt.phase.Finalized? ==> GroupClosed(s.turns[t], s.dead)
    requires SettledBefore(s, t, rt)
    ensures SaveAllowedNow(s, t, rt)
  {
    hide Inv, ValidRuntime, Linked, EndedBy;
    EndingLinks(s, t, rt, e);
    EndingEvidence(s, t, rt);
  }

  // The deadline passed before the Turn was claimed: nothing was launched.
  lemma UnlaunchedHasNoFiles(s: Store, t: nat)
    requires Inv(s) && t < |s.turns| && s.turns[t].rt.nonce.None?
    ensures s.turns[t].sup.None? && s.turns[t].runnerFile.None? && s.turns[t].auth.None?
    ensures s.turns[t].rt.supervisor.None? && s.turns[t].rt.runner.None? && s.turns[t].rt.evidence.ref.None?
  {
    hide JournalInv, PolicyInv, SessionInv, CountInv;
    assert ProcOk(s.turns[t], t, s.dead, s.passed);
  }

  // An Origin Turn is ended by a save that carries no process evidence at all.
  lemma OriginSaveAllowed(s: Store, t: nat, rt: Runtime, e: Event)
    requires Inv(s) && t < |s.turns| && s.turns[t].rt.executor.ByOrigin?
    requires ValidRuntime(s.team, rt) && SaveAllowed(s.turns[t].rt, rt)
    requires TerminalFor(s.events, t) == Some(e)
    requires rt.terminal == Some(e.id) && rt.outcome == Some(OutcomeOf(e.body)) && Ended(rt.phase)
    ensures SaveAllowedNow(s, t, rt)
  {
    hide Inv, Linked, EndedBy;
    EndingLinks(s, t, rt, e);
    OriginEvidence(s, t, rt);
  }

  lemma OriginEvidence(s: Store, t: nat, rt: Runtime)
    requires rt.ending.kind.None?
    ensures EndedBy(s.events, t, rt)
  {
  }

  // Recording the After Facts hash of an open Turn.
  lemma AfterSaveAllowed(s: Store, t: nat, tree: Tree)
    requires Inv(s) && Open(s, t) && s.turns[t].rt.after.None? && s.turns[t].rt.business.Some?
    ensures SaveAllowedNow(s, t, s.turns[t].rt.(after := Some(tree)))
  {
    hide Inv, Linked, EndedBy, ProcOk, SaveKeepsProcess, ValidRuntime;
    var rt := s.turns[t].rt.(after := Some(tree));
    OpenLinks(s, t, rt);
    OpenHasNoEnding(s, t);
    OriginEvidence(s, t, rt);
    ProcessesOf(s, t);
    AfterKeepsValid(s, t, tree);
    OpenKeepsProcess(s, t, rt);
  }

  lemma ProcessesOf(s: Store, t: nat)
    requires Inv(s) && t < |s.turns|
    ensures ProcOk(s.turns[t], t, s.dead, s.passed)
  {
    hide JournalInv, PolicyInv, SessionInv, CountInv, ProcOk;
  }

  lemma AfterKeepsValid(s: Store, t: nat, tree: Tree)
    requires Inv(s) && t < |s.turns| && s.turns[t].rt.business.Some?
    ensures ValidRuntime(s.team, s.turns[t].rt) && ValidRuntime(s.team, s.turns[t].rt.(after := Some(tree)))
  {
    hide ProcInv, PolicyInv, SessionInv, CountInv, Accepted, Linked;
    assert ValidRuntime(s.team, s.turns[t].rt);
  }

  // A save that leaves the process fields of an open Turn alone.
  lemma OpenKeepsProcess(s: Store, t: nat, rt: Runtime)
    requires t < |s.turns| && ProcOk(s.turns[t], t, s.dead, s.passed)
    requires rt.executor == s.turns[t].rt.executor && rt.phase == s.turns[t].rt.phase && !Ended(rt.phase)
    requires rt.supervisor == s.turns[t].rt.supervisor && rt.runner == s.turns[t].rt.runner
    requires rt.evidence == s.turns[t].rt.evidence && rt.ending == s.turns[t].rt.ending
    ensures SaveKeepsProcess(s.turns[t], rt, s.dead)
  {
  }
}
