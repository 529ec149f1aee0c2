/**
 Replay stability: an event that was accepted once stays accepted although its
 checks read Runtimes that later writes change.
 */
module Stability {
  import opened Model
  import opened Options
  import opened Journal
  import opened Turns
  import opened Replay
  import opened Invariant

  // ---- appending an event

  lemma PrefixCursor(events: seq<Event>, e: Event, k: nat)
    requires k <= |events|
    ensures CursorAt(events + [e], k) == CursorAt(events, k)
    ensures PriorIds(events + [e], k) == PriorIds(events, k)
  {
    assert forall j | 0 <= j < k :: (events + [e])[j] == events[j];
    assert TerminalsIn(events + [e], k) == TerminalsIn(events, k);
  }

  lemma CommitKeepsAccepted(team: Team, events: seq<Event>, e: Event, turns: seq<Turn>)
    requires Accepted(team, events, turns)
    requires StepAccepted(team, events + [e], turns, |events|)
    ensures Accepted(team, events + [e], turns)
  {
    hide ValidateTransition;
    forall k | 0 <= k < |events + [e]|
      ensures StepAccepted(team, events + [e], turns, k)
    {
      if k < |events| {
        assert StepAccepted(team, events, turns, k);
        PrefixCursor(events, e, k);
        assert (events + [e])[k] == events[k];
      }
    }
  }

  // ---- claiming a Turn on the journal tail

  lemma {:induction false} CountInPrefix(turns: seq<Turn>, u: Turn, prior: set<EventId>, n: nat)
    requires n <= |turns|
    ensures CountIn(turns + [u], prior, n) == CountIn(turns, prior, n)
  {
    if n > 0 {
      CountInPrefix(turns, u, prior, n - 1);
      assert (turns + [u])[n - 1] == turns[n - 1];
    }
  }

  lemma ClaimKeepsContext(events: seq<Event>, turns: seq<Turn>, u: Turn, k: nat)
    requires Chained(events) && k < |events| && u.rt.input.n == |events|
    ensures CountBefore(events, turns + [u], k) == CountBefore(events, turns, k)
    ensures k > 0 ==> Claims(turns + [u], events[k - 1].id) == Claims(turns, events[k - 1].id)
  {
    var prior := PriorIds(events, k);
    CountInPrefix(turns, u, prior, |turns|);
    assert forall j | 0 <= j < k :: events[j].id.n == j + 1;
    assert u.rt.input !in prior;
    assert (turns + [u])[|turns|] == u;
    if k > 0 {
      var id := events[k - 1].id;
      assert id.n == k;
      forall t | t in Claims(turns + [u], id) ensures t in Claims(turns, id) {
        assert t < |turns|;
      }
      forall t | t in Claims(turns, id) ensures t in Claims(turns + [u], id) {
        assert (turns + [u])[t] == turns[t];
      }
    }
  }

  lemma ClaimKeepsStep(team: Team, events: seq<Event>, turns: seq<Turn>, u: Turn, k: nat)
    requires Chained(events) && k < |events| && u.rt.input.n == |events| && !u.rt.phase.RecoveryRequired?
    requires StepAccepted(team, events, turns, k)
    ensures StepAccepted(team, events, turns + [u], k)
  {
    ClaimKeepsContext(events, turns, u, k);
    var all := turns + [u];
    assert forall t | 0 <= t < |turns| :: all[t] == turns[t];
    var n := events[k].id.n;
    if RecoveryGateClosed(all, n) {
      var t :| 0 <= t < |all| && all[t].rt.phase.RecoveryRequired? && all[t].rt.input.n < n;
      assert t < |turns| && turns[t].rt.phase.RecoveryRequired?;
      assert RecoveryGateClosed(turns, n);
    }
  }

  lemma ClaimKeepsAccepted(team: Team, events: seq<Event>, turns: seq<Turn>, u: Turn)
    requires Chained(events) && u.rt.input.n == |events| && !u.rt.phase.RecoveryRequired?
    requires Accepted(team, events, turns)
    ensures Accepted(team, events, turns + [u])
  {
    hide StepAccepted;
    forall k | 0 <= k < |events| ensures StepAccepted(team, events, turns + [u], k) {
      ClaimKeepsStep(team, events, turns, u, k);
    }
  }

  // ---- saving a Runtime

  predicate SameClaims(turns: seq<Turn>, turns': seq<Turn>) {
    |turns| == |turns'| && forall t | 0 <= t < |turns| :: SameClaim(turns[t].rt, turns'[t].rt)
  }

  lemma {:induction false} SameCount(turns: seq<Turn>, turns': seq<Turn>, prior: set<EventId>, n: nat)
    requires SameClaims(turns, turns') && n <= |turns|
    ensures CountIn(turns, prior, n) == CountIn(turns', prior, n)
    ensures BusinessCount(turns, n) == BusinessCount(turns', n)
  {
    if n > 0 {
      SameCount(turns, turns', prior, n - 1);
      assert SameClaim(turns[n - 1].rt, turns'[n - 1].rt);
    }
  }

  lemma SameClaimSets(turns: seq<Turn>, turns': seq<Turn>, id: EventId)
    requires SameClaims(turns, turns')
    ensures Claims(turns, id) == Claims(turns', id)
  {
    forall t | 0 <= t < |turns| ensures turns[t].rt.input == turns'[t].rt.input {
      assert SameClaim(turns[t].rt, turns'[t].rt);
    }
  }

  // What a saved Runtime must still say about the event that ended its Turn.
  predicate StillFits(rt: Runtime, e: Event) {
    && TerminalFree(rt, e)
    && (e.body.Handoff? ==> EvidenceAllows(rt, e.body.why))
  }

  lemma SaveKeepsStep(team: Team, events: seq<Event>, turns: seq<Turn>, turns': seq<Turn>, k: nat)
    requires k < |events| && SameClaims(turns, turns')
    requires StepAccepted(team, events, turns, k)
    requires events[k].turn.Some? && events[k].turn.value < |turns| ==> StillFits(turns'[events[k].turn.value].rt, events[k])
    requires events[k].body.Resume? ==> !RecoveryGateClosed(turns', events[k].id.n)
    ensures StepAccepted(team, events, turns', k)
  {
    SameCount(turns, turns', PriorIds(events, k), |turns|);
    if k > 0 { SameClaimSets(turns, turns', events[k - 1].id); }
    if events[k].turn.Some? && events[k].turn.value < |turns| {
      assert SameClaim(turns[events[k].turn.value].rt, turns'[events[k].turn.value].rt);
    }
  }

  // Nothing claimed before an accepted Resume can require recovery any more:
  // only the last Turn may still be open, and it was claimed after the Resume
  // or is the Origin management Turn the Resume itself ended.
  lemma NoLateRecovery(team: Team, events: seq<Event>, turns: seq<Turn>, turns': seq<Turn>, k: nat)
    requires 0 < k < |events| && events[k].body.Resume?
    requires Chained(events) && StepAccepted(team, events, turns, k)
    requires SameClaims(turns, turns') && InputsRise(turns)
    requires TurnsValid(team, turns') && EarlierClosed(turns')
    ensures !RecoveryGateClosed(turns', events[k].id.n)
  {
    StepTells(team, events, turns, k);
    var m := events[k].turn.value;
    forall t | 0 <= t < |turns'| && turns'[t].rt.input.n < events[k].id.n
      ensures !turns'[t].rt.phase.RecoveryRequired?
    {
      assert SameClaim(turns[t].rt, turns'[t].rt) && SameClaim(turns[m].rt, turns'[m].rt);
      assert t <= m;
      assert ValidRuntime(team, turns'[m].rt);
    }
  }
}
