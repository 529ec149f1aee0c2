/** Which event ended a Turn. */
module Endings {
  import opened Model
  import opened Options
  import opened Journal
  import opened Turns
  import opened Replay
  import opened Invariant
  import opened Machine
  import C = CommitProof
  import S = SaveProof

  // JournalProjection.terminal_for_turn: the first event that names the Turn.
  function TerminalFrom(events: seq<Event>, t: nat, k: nat): Option<Event>
    requires k <= |events|
    decreases |events| - k
  {
    if k == |events| then None
    else if events[k].turn == Some(t) && !events[k].body.Kickoff? then Some(events[k])
    else TerminalFrom(events, t, k + 1)
  }

  function TerminalFor(events: seq<Event>, t: nat): Option<Event> { TerminalFrom(events, t, 0) }

  lemma {:induction false} TerminalFromIs(events: seq<Event>, t: nat, k: nat)
    requires k <= |events|
    ensures match TerminalFrom(events, t, k)
            case None => forall j | k <= j < |events| :: events[j].turn == Some(t) ==> events[j].body.Kickoff?
            case Some(e) => exists j | k <= j < |events| :: events[j] == e && e.turn == Some(t) && !e.body.Kickoff?
    decreases |events| - k
  {
    if k < |events| { TerminalFromIs(events, t, k + 1); }
  }

  // An event ends a Turn exactly when it follows the Turn's input and names it.
  lemma TerminalIsSuccessor(s: Store, t: nat)
    requires Inv(s) && t < |s.turns|
    ensures s.turns[t].rt.input.n <= |s.events|
    ensures TerminalFor(s.events, t)
         == (if s.turns[t].rt.input.n < |s.events| && s.events[s.turns[t].rt.input.n].turn == Some(t)
             then Some(s.events[s.turns[t].rt.input.n]) else None)
  {
    hide ProcInv, PolicyInv, SessionInv, CountInv, ValidRuntime, Accepted;
    TerminalFromIs(s.events, t, 0);
    assert Linked(s.events, s.turns[t].rt);
    KickoffHasNoTurn(s);
    var n := s.turns[t].rt.input.n;
    forall j | 0 <= j < |s.events| && s.events[j].turn == Some(t) ensures j == n {
      S.OneEnding(s.team, s.events, s.turns, j, j, t);
    }
  }

  lemma KickoffHasNoTurn(s: Store)
    requires Inv(s)
    ensures forall j | 0 <= j < |s.events| :: s.events[j].body.Kickoff? ==> j == 0 && s.events[j].turn.None?
  {
    hide ProcInv, PolicyInv, SessionInv, CountInv, ValidRuntime, Linked;
    hide ValidateTransition;
    S.FirstHasNoTurn(s.team, s.events, s.turns);
    forall j | 0 <= j < |s.events| && s.events[j].body.Kickoff? ensures j == 0 {
      assert StepAccepted(s.team, s.events, s.turns, j);
    }
  }

  // Every event after the Kickoff ends exactly one Turn, except a Cancel that
  // arrived before the current event was claimed.
  lemma EveryEventEndsATurn(s: Store, k: nat)
    requires Inv(s) && 0 < k < |s.events|
    ensures s.events[k].turn.None? ==> s.events[k].body.Cancel? && Claims(s.turns, s.events[k - 1].id) == {}
    ensures s.events[k].turn.Some? ==>
              s.events[k].turn.value < |s.turns| && TerminalFor(s.events, s.events[k].turn.value) == Some(s.events[k])
  {
    hide ProcInv, PolicyInv, SessionInv, CountInv, ValidRuntime, Linked, StepAccepted;
    C.AllSteps(s.team, s.events, s.turns);
    assert StepFacts(s.events, s.turns, k);
    hide Inv;
    if s.events[k].turn.Some? {
      TerminalIsSuccessor(s, s.events[k].turn.value);
      EndsAt(s, s.events[k].turn.value, k);
    }
  }

  lemma EndsAt(s: Store, t: nat, k: nat)
    requires Inv(s) && k < |s.events| && t < |s.turns| && s.events[k].turn == Some(t)
    ensures k == s.turns[t].rt.input.n
  {
    hide ProcInv, PolicyInv, SessionInv, CountInv, ValidRuntime, Linked, Accepted;
    S.OneEnding(s.team, s.events, s.turns, k, k, t);
  }
}
