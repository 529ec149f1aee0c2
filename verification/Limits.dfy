/** Bounds that hold in every reachable state. */
module Limits {
  import opened Model
  import opened Options
  import opened Journal
  import opened Turns
  import opened Replay
  import opened Invariant
  import opened Machine
  import opened Guards
  import C = CommitProof

  predicate Closes(e: Event) { e.body.Complete? || e.body.Cancel? }

  // Every Block directly follows the token transfer its Turn was claimed on,
  // and only the last event may close the Run.
  lemma {:induction false} LengthBound(team: Team, events: seq<Event>, turns: seq<Turn>, k: nat)
    requires Chained(events) && Accepted(team, events, turns) && k <= |events|
    ensures k <= 2 * RunningCount(events, k) + (if k > 0 && Closes(events[k - 1]) then 1 else 0)
    ensures k > 0 && Starts(events[k - 1]) ==> k + 1 <= 2 * RunningCount(events, k)
    decreases k
  {
    if k == 1 {
      assert StepAccepted(team, events, turns, 0);
    }
    if k > 1 {
      C.AllSteps(team, events, turns);
      assert StepFacts(events, turns, k - 1);
      C.OnlyLastCloses(team, events, turns, k - 2);
      hide Accepted;
      LengthBound(team, events, turns, k - 1);
    }
  }

  // At most max_turns business Turns and 2 * max_turns + 1 events, and a token
  // transfer that waits for its claim can always be claimed.
  lemma Bounded(s: Store)
    requires Inv(s)
    ensures BusinessCount(s.turns, |s.turns|) <= s.team.maxTurns
    ensures |s.events| <= 2 * s.team.maxTurns + 1
    ensures (|s.events| > 0 && Starts(s.events[|s.events| - 1]) && Claims(s.turns, s.events[|s.events| - 1].id) == {})
            ==> BusinessCount(s.turns, |s.turns|) < s.team.maxTurns
  {
    hide ValidRuntime, Linked, ProcInv, PolicyInv, SessionInv;
    LengthBound(s.team, s.events, s.turns, |s.events|);
    hide Accepted;
    assert (|s.events| > 0 && Starts(s.events[|s.events| - 1]) && Claims(s.turns, s.events[|s.events| - 1].id) == {})
           ==> Pending(s.events, s.turns);
  }

  // The event that ends the final allowed Turn never transfers the token again.
  lemma FinalTurnKeepsToken(s: Store, t: nat)
    requires Inv(s) && t < |s.turns| && s.turns[t].rt.business == Some(s.team.maxTurns)
    requires s.turns[t].rt.input.n < |s.events|
    ensures !Starts(s.events[s.turns[t].rt.input.n])
  {
    hide ValidRuntime, ProcInv, PolicyInv, SessionInv, ValidateTransition, Linked;
    var n := s.turns[t].rt.input.n;
    InputPosition(s, t);
    ClaimantEndsIt(s, t);
    C.AllSteps(s.team, s.events, s.turns);
    assert StepFacts(s.events, s.turns, n);
    assert StepAccepted(s.team, s.events, s.turns, n);
    hide StepAccepted;
    if s.events[n].body.Handoff? { C.HandoffBelowLimit(s.team, s.events, s.turns, n); }
  }
}
