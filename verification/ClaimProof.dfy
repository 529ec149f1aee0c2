/** Claiming the journal tail keeps the invariant. */
module ClaimProof {
  import opened Model
  import opened Options
  import opened Journal
  import opened Turns
  import opened Replay
  import opened Invariant
  import opened Stability
  import opened Sessions
  import opened Machine
  import C = CommitProof

  function NewTurn(rt: Runtime): Turn { Turn(rt, None, None, None, None, None) }

  lemma {:induction false} BusinessPrefix(turns: seq<Turn>, u: Turn, n: nat)
    requires n <= |turns|
    ensures BusinessCount(turns + [u], n) == BusinessCount(turns, n)
  {
    if n > 0 {
      BusinessPrefix(turns, u, n - 1);
      assert (turns + [u])[n - 1] == turns[n - 1];
    }
  }

  // Every earlier Turn was claimed on an earlier event than the tail.
  lemma EarlierInputs(events: seq<Event>, turns: seq<Turn>, t: nat)
    requires Chained(events) && AllLinked(events, turns) && |events| > 0
    requires Claims(turns, events[|events| - 1].id) == {} && t < |turns|
    ensures turns[t].rt.input.n < |events|
  {
    assert Linked(events, turns[t].rt);
    assert t !in Claims(turns, events[|events| - 1].id);
  }

  lemma ClaimKeepsOrder(s: Store, rt: Runtime)
    requires JournalInv(s.team, s.events, s.turns) && ClaimAllowed(s, rt)
    ensures InputsRise(s.turns + [NewTurn(rt)]) && EarlierClosed(s.turns + [NewTurn(rt)])
  {
    hide Accepted, ValidRuntime;
    var all := s.turns + [NewTurn(rt)];
    forall i, j | 0 <= i < j < |all| ensures all[i].rt.input.n < all[j].rt.input.n {
      if j == |s.turns| { EarlierInputs(s.events, s.turns, i); }
    }
  }

  lemma ClaimKeepsNumbers(s: Store, rt: Runtime)
    requires Numbered(s.turns)
    requires rt.business.Some? ==> rt.business.value == BusinessCount(s.turns, |s.turns|) + 1
    ensures Numbered(s.turns + [NewTurn(rt)])
    ensures BusinessCount(s.turns + [NewTurn(rt)], |s.turns| + 1)
         == BusinessCount(s.turns, |s.turns|) + (if rt.business.Some? then 1 else 0)
  {
    var all := s.turns + [NewTurn(rt)];
    forall t | 0 <= t < |all|
      ensures all[t].rt.business.Some? ==> all[t].rt.business.value == BusinessCount(all, t) + 1
    {
      BusinessPrefix(s.turns, NewTurn(rt), t);
      if t < |s.turns| { assert all[t] == s.turns[t]; }
    }
    BusinessPrefix(s.turns, NewTurn(rt), |s.turns|);
  }

  lemma ClaimKeepsJournal(s: Store, rt: Runtime)
    requires JournalInv(s.team, s.events, s.turns) && ClaimAllowed(s, rt)
    ensures JournalInv(s.team, s.events, s.turns + [NewTurn(rt)])
  {
    hide StepAccepted, ValidRuntime, InputFits, TerminalFits;
    var u := NewTurn(rt);
    var all := s.turns + [u];
    ClaimKeepsOrder(s, rt);
    ClaimKeepsNumbers(s, rt);
    ClaimKeepsAccepted(s.team, s.events, s.turns, u);
    hide Accepted;
    assert forall t | 0 <= t < |all| :: all[t] == if t < |s.turns| then s.turns[t] else u;
    assert Linked(s.events, rt);
  }

  lemma ClaimKeepsProcess(s: Store, rt: Runtime)
    requires ProcInv(s) && ClaimAllowed(s, rt)
    ensures ProcInv(Apply(s, Claim(rt)))
  {
    assert rt.ending == NotEnded;
    hide ValidRuntime;
    var s' := Apply(s, Claim(rt));
    forall t | 0 <= t < |s'.turns| ensures ProcOk(s'.turns[t], t, s'.dead, s'.passed) {
      if t < |s.turns| {
        assert s'.turns[t] == s.turns[t];
        assert ProcOk(s.turns[t], t, s.dead, s.passed);
      }
    }
  }

  lemma ClaimKeepsPolicy(s: Store, rt: Runtime)
    requires PolicyInv(s) && AllLinked(s.events, s.turns) && ClaimAllowed(s, rt)
    ensures PolicyInv(Apply(s, Claim(rt)))
  {
    hide ValidRuntime, InputFits;
    var s' := Apply(s, Claim(rt));
    assert forall t | 0 <= t < |s.turns| :: s'.turns[t] == s.turns[t];
    forall k | 0 <= k < |s.events| ensures EventPolicy(s.team, s.events[k], s'.turns, s.dead) {
      assert EventPolicy(s.team, s.events[k], s.turns, s.dead);
    }
    forall t | 0 <= t < |s'.turns| && Launched(s'.turns[t].rt)
      ensures Continuous(s.events, s'.turns, s'.turns[t].rt)
    {
      assert t < |s.turns|;
      assert Continuous(s.events, s.turns, s.turns[t].rt);
    }
  }

  lemma ClaimKeepsSessions(s: Store, rt: Runtime)
    requires SessionInv(s) && PolicyInv(s) && ClaimAllowed(s, rt)
    ensures SessionInv(Apply(s, Claim(rt)))
  {
    hide InputFits, ValidRuntime, EventPolicy, StepHeld, ClaimHeld, LaunchOk, SettledOnce, RouteHeld, Continuous;
    var s' := Apply(s, Claim(rt));
    assert forall t | 0 <= t < |s.turns| :: s'.turns[t] == s.turns[t];
    forall role | role in s.sessions ensures SessionOk(s.team, s'.turns, role, s.sessions[role]) {
      assert SessionOk(s.team, s.turns, role, s.sessions[role]);
    }
    forall t | 0 <= t < |s'.turns| ensures StepHeld(s', t) && ClaimHeld(s', t) && LaunchOk(s', t) && SettledOnce(s', t) {
      if t < |s.turns| { EarlierHeld(s, rt, t); } else { NewHeld(s, rt); }
    }
    forall k | 0 <= k < |s.events| ensures RouteHeld(s', s.events[k]) {
      assert EventPolicy(s.team, s.events[k], s.turns, s.dead);
      RouteStaysHeld(s, rt, s.events[k]);
    }
  }

  lemma NewestEarlier(s: Store, rt: Runtime, t: nat)
    requires t < |s.turns| && Newest(Apply(s, Claim(rt)), t)
    ensures Newest(s, t)
  {
    var all := Apply(s, Claim(rt)).turns;
    assert all[t] == s.turns[t];
    forall v | t < v < |s.turns| ensures s.turns[v].rt.role != s.turns[t].rt.role {
      assert all[v] == s.turns[v];
    }
  }

  lemma EarlierHeld(s: Store, rt: Runtime, t: nat)
    requires t < |s.turns| && StepHeld(s, t) && ClaimHeld(s, t) && LaunchOk(s, t) && SettledOnce(s, t)
    ensures StepHeld(Apply(s, Claim(rt)), t) && ClaimHeld(Apply(s, Claim(rt)), t)
    ensures LaunchOk(Apply(s, Claim(rt)), t) && SettledOnce(Apply(s, Claim(rt)), t)
  {
    hide InStep, LaunchGeneration, Begins;
    assert forall u | 0 <= u < |s.turns| :: Apply(s, Claim(rt)).turns[u] == s.turns[u];
    if Newest(Apply(s, Claim(rt)), t) { NewestEarlier(s, rt, t); }
  }

  lemma NewHeld(s: Store, rt: Runtime)
    requires ClaimAllowed(s, rt)
    ensures StepHeld(Apply(s, Claim(rt)), |s.turns|) && ClaimHeld(Apply(s, Claim(rt)), |s.turns|)
    ensures LaunchOk(Apply(s, Claim(rt)), |s.turns|) && SettledOnce(Apply(s, Claim(rt)), |s.turns|)
  {
    hide InputFits;
    if rt.role.Some? && rt.role.value in s.team.roles {
      ClaimInStep(s.team.roles[rt.role.value].policy, Lookup(s.sessions, rt.role.value), |s.turns|);
    }
  }

  lemma RouteStaysHeld(s: Store, rt: Runtime, e: Event)
    requires EventPolicy(s.team, e, s.turns, s.dead) && RouteHeld(s, e)
    ensures RouteHeld(Apply(s, Claim(rt)), e)
  {
    hide FrozenFor;
    if e.turn.Some? && Newest(Apply(s, Claim(rt)), e.turn.value) { NewestEarlier(s, rt, e.turn.value); }
  }

  // After a claim on the tail no token transfer is left unclaimed.
  lemma ClaimClearsPending(s: Store, rt: Runtime)
    requires JournalInv(s.team, s.events, s.turns) && ClaimAllowed(s, rt)
    ensures !Pending(s.events, s.turns + [NewTurn(rt)])
  {
    hide JournalInv;
    var u := NewTurn(rt);
    var all := s.turns + [u];
    forall k | 0 <= k < |s.events| && Starts(s.events[k])
      ensures Claims(all, s.events[k].id) != {}
    {
      assert all[|s.turns|] == u;
      if k == |s.events| - 1 {
        assert |s.turns| in Claims(all, s.events[k].id);
      } else {
        ClaimedBefore(s, rt, k);
        var t :| t in Claims(s.turns, s.events[k].id);
        assert all[t] == s.turns[t];
        assert t in Claims(all, s.events[k].id);
      }
    }
  }

  lemma ClaimKeepsCount(s: Store, rt: Runtime)
    requires JournalInv(s.team, s.events, s.turns) && CountInv(s) && ClaimAllowed(s, rt)
    ensures CountInv(Apply(s, Claim(rt)))
  {
    hide Accepted, ValidRuntime, Linked;
    var n := |s.events|;
    ClaimKeepsNumbers(s, rt);
    ClaimClearsPending(s, rt);
    if rt.business.Some? {
      assert Starts(s.events[n - 1]) && Claims(s.turns, s.events[n - 1].id) == {};
      assert Pending(s.events, s.turns);
    } else {
      C.NothingPending(s.team, s.events, s.turns);
    }
  }

  // Before a claim on the tail every earlier token transfer has been claimed.
  lemma ClaimedBefore(s: Store, rt: Runtime, k: nat)
    requires JournalInv(s.team, s.events, s.turns) && ClaimAllowed(s, rt)
    requires k < |s.events| - 1 && Starts(s.events[k])
    ensures Claims(s.turns, s.events[k].id) != {}
  {
    hide Accepted, ValidRuntime;
    if Claims(s.turns, s.events[k].id) == {} { C.PendingIsLast(s.team, s.events, s.turns, k); }
  }
}
