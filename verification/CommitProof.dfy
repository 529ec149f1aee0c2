/** Committing an event keeps the invariant. */
module CommitProof {
  import opened Model
  import opened Options
  import opened Journal
  import opened Turns
  import opened Replay
  import opened Invariant
  import opened Stability
  import opened Machine

  lemma AllSteps(team: Team, events: seq<Event>, turns: seq<Turn>)
    requires Accepted(team, events, turns)
    ensures forall k | 0 < k < |events| :: StepFacts(events, turns, k)
  {
    hide StepAccepted;
    forall k | 0 < k < |events| ensures StepFacts(events, turns, k) {
      assert StepAccepted(team, events, turns, k);
      StepTells(team, events, turns, k);
    }
  }

  // A token transfer that nobody claimed is the tail, or the tail is the
  // Cancel that arrived before any claim.
  lemma PendingIsLast(team: Team, events: seq<Event>, turns: seq<Turn>, k: nat)
    requires Chained(events) && Accepted(team, events, turns)
    requires k < |events| && Starts(events[k]) && Claims(turns, events[k].id) == {}
    ensures k == |events| - 1 || (k == |events| - 2 && events[k + 1].body.Cancel? && events[k + 1].turn.None?)
  {
    AllSteps(team, events, turns);
    hide Accepted;
    if k + 1 < |events| {
      assert StepFacts(events, turns, k + 1);
      forall t | 0 <= t < |turns| ensures turns[t].rt.input != events[k].id {
        assert t !in Claims(turns, events[k].id);
      }
      CancelIsLast(team, events, turns, k + 1);
    }
  }

  // Completed and cancelled Runs take no further event.
  lemma OnlyLastCloses(team: Team, events: seq<Event>, turns: seq<Turn>, k: nat)
    requires Accepted(team, events, turns) && k + 1 < |events|
    ensures !events[k].body.Cancel? && !events[k].body.Complete?
  {
    assert StepAccepted(team, events, turns, k + 1);
    StepTells(team, events, turns, k + 1);
  }

  lemma CancelIsLast(team: Team, events: seq<Event>, turns: seq<Turn>, k: nat)
    requires Accepted(team, events, turns) && k < |events|
    requires events[k].body.Cancel? || events[k].body.Complete?
    ensures k == |events| - 1
  {
    hide Accepted;
    if k + 1 < |events| { OnlyLastCloses(team, events, turns, k); }
  }

  lemma {:induction false} RunningPrefix(events: seq<Event>, e: Event, k: nat)
    requires k <= |events|
    ensures RunningCount(events + [e], k) == RunningCount(events, k)
  {
    if k > 0 {
      RunningPrefix(events, e, k - 1);
      assert (events + [e])[k - 1] == events[k - 1];
    }
  }

  lemma {:induction false} CountAllBefore(turns: seq<Turn>, prior: set<EventId>, n: nat)
    requires n <= |turns| && forall t | 0 <= t < n :: turns[t].rt.input in prior
    ensures CountIn(turns, prior, n) == BusinessCount(turns, n)
  {
    if n > 0 { CountAllBefore(turns, prior, n - 1); }
  }

  // The number of business Turns a commit sees on disk is the number every
  // later replay reconstructs for that event.
  lemma CountsCoincide(events: seq<Event>, turns: seq<Turn>)
    requires AllLinked(events, turns)
    ensures CountBefore(events, turns, |events|) == BusinessCount(turns, |turns|)
  {
    var prior := PriorIds(events, |events|);
    forall t | 0 <= t < |turns| ensures turns[t].rt.input in prior {
      assert Linked(events, turns[t].rt);
    }
    CountAllBefore(turns, prior, |turns|);
  }

  lemma LinkedGrows(events: seq<Event>, e: Event, rt: Runtime)
    requires Linked(events, rt)
    ensures Linked(events + [e], rt)
  {
    assert forall j | 0 <= j < |events| :: (events + [e])[j] == events[j];
  }

  lemma CommitKeepsJournal(s: Store, e: Event)
    requires JournalInv(s.team, s.events, s.turns) && CommitAllowed(s, e)
    ensures JournalInv(s.team, s.events + [e], s.turns)
  {
    hide StepAccepted, ValidRuntime;
    CommitKeepsAccepted(s.team, s.events, e, s.turns);
    forall t | 0 <= t < |s.turns| ensures Linked(s.events + [e], s.turns[t].rt) {
      assert Linked(s.events, s.turns[t].rt);
      LinkedGrows(s.events, e, s.turns[t].rt);
    }
  }

  lemma CommitKeepsPolicy(s: Store, e: Event)
    requires PolicyInv(s) && AllLinked(s.events, s.turns) && EventPolicy(s.team, e, s.turns, s.dead)
    ensures PolicyInv(s.(events := s.events + [e]))
  {
    var s' := s.(events := s.events + [e]);
    forall k | 0 <= k < |s'.events| ensures EventPolicy(s'.team, s'.events[k], s'.turns, s'.dead) {
      if k < |s.events| { assert s'.events[k] == s.events[k]; }
    }
    forall t | 0 <= t < |s.turns| && Launched(s.turns[t].rt)
      ensures Continuous(s'.events, s'.turns, s'.turns[t].rt)
    {
      assert Linked(s.events, s.turns[t].rt);
      assert s'.events[s.turns[t].rt.input.n - 1] == s.events[s.turns[t].rt.input.n - 1];
    }
  }

  // The claimant of the journal tail is the last Turn.
  lemma TailClaimIsLast(events: seq<Event>, turns: seq<Turn>, t: nat)
    requires InputsRise(turns) && AllLinked(events, turns)
    requires t < |turns| && turns[t].rt.input.n == |events|
    ensures t == |turns| - 1
  {
    var last := |turns| - 1;
    assert Linked(events, turns[last].rt);
    assert turns[last].rt.input.n <= turns[t].rt.input.n;
  }

  // Nothing is pending before an event that a claimed Turn commits.
  lemma NothingPending(team: Team, events: seq<Event>, turns: seq<Turn>)
    requires Chained(events) && Accepted(team, events, turns) && |events| > 0
    requires !events[|events| - 1].body.Cancel?
    requires Starts(events[|events| - 1]) ==> Claims(turns, events[|events| - 1].id) != {}
    ensures !Pending(events, turns)
  {
    hide Accepted;
    forall k | 0 <= k < |events| && Starts(events[k])
      ensures Claims(turns, events[k].id) != {}
    {
      if Claims(turns, events[k].id) == {} { PendingIsLast(team, events, turns, k); }
    }
  }

  lemma PendingAfter(events: seq<Event>, e: Event, turns: seq<Turn>)
    requires Chained(events + [e]) && AllLinked(events, turns)
    ensures Pending(events + [e], turns) <==> Pending(events, turns) || Starts(e)
  {
    var all := events + [e];
    assert forall k | 0 <= k < |events| :: all[k] == events[k];
    assert all[|events|] == e && e.id.n == |events| + 1;
    forall t | 0 <= t < |turns| ensures turns[t].rt.input != e.id {
      assert Linked(events, turns[t].rt);
    }
    assert Claims(turns, e.id) == {};
    if Pending(events, turns) {
      var k :| 0 <= k < |events| && Starts(events[k]) && Claims(turns, events[k].id) == {};
      assert all[k] == events[k];
    }
    if Starts(e) { assert Starts(all[|events|]) && Claims(turns, all[|events|].id) == {}; }
  }

  lemma NoTurnBeforeKickoff(events: seq<Event>, turns: seq<Turn>)
    requires AllLinked(events, turns)
    ensures |turns| > 0 ==> |events| > 0
  {
    assert |turns| > 0 ==> Linked(events, turns[0].rt);
  }

  // A token transfer is only committed while the business Turns claimed so far
  // are fewer than max_turns.
  lemma TransferBelowLimit(s: Store, e: Event)
    requires s.team.Valid() && JournalInv(s.team, s.events, s.turns) && CommitAllowed(s, e) && Starts(e)
    ensures BusinessCount(s.turns, |s.turns|) < s.team.maxTurns
  {
    var all := s.events + [e];
    var n := |s.events|;
    CountsCoincide(s.events, s.turns);
    PrefixCursor(s.events, e, n);
    assert StepAccepted(s.team, all, s.turns, n);
    if n == 0 {
      NoTurnBeforeKickoff(s.events, s.turns);
    } else if e.body.Handoff? {
      StepTells(s.team, all, s.turns, n);
      assert all[n - 1] == s.events[n - 1];
      TailClaimIsLast(s.events, s.turns, e.turn.value);
      HandoffBelowLimit(s.team, all, s.turns, n);
    } else {
      ResumeBelowLimit(s.team, all, s.turns, n);
    }
  }

  lemma HandoffBelowLimit(team: Team, events: seq<Event>, turns: seq<Turn>, k: nat)
    requires k < |events| && StepAccepted(team, events, turns, k) && events[k].body.Handoff?
    ensures events[k].turn.Some? && events[k].turn.value < |turns|
    ensures turns[events[k].turn.value].rt.business.Some? && turns[events[k].turn.value].rt.business.value < team.maxTurns
  {
  }

  lemma ResumeBelowLimit(team: Team, events: seq<Event>, turns: seq<Turn>, k: nat)
    requires k < |events| && StepAccepted(team, events, turns, k) && events[k].body.Resume?
    ensures CountBefore(events, turns, k) < team.maxTurns
  {
  }

  lemma CommitKeepsCount(s: Store, e: Event)
    requires s.team.Valid() && JournalInv(s.team, s.events, s.turns) && CountInv(s) && CommitAllowed(s, e)
    ensures CountInv(s.(events := s.events + [e]))
  {
    hide JournalInv, CommitAllowed, Pending, Claims, StatusAfter;
    var all := s.events + [e];
    var n := |s.events|;
    assert Chained(all) && AllLinked(s.events, s.turns) by { CommitShape(s, e); }
    hide Chained, AllLinked;
    RunningPrefix(s.events, e, n);
    PendingAfter(s.events, e, s.turns);
    if Starts(e) {
      TransferBelowLimit(s, e);
      if n > 0 { TransferClearsPending(s, e); }
    }
    assert n == 0 ==> !Pending(s.events, s.turns) by { NothingBeforeKickoff(s); }
  }

  lemma CommitShape(s: Store, e: Event)
    requires JournalInv(s.team, s.events, s.turns) && CommitAllowed(s, e)
    ensures Chained(s.events + [e]) && AllLinked(s.events, s.turns)
  {
    hide Chained, StepAccepted, TurnsValid, AllLinked, Accepted;
  }

  lemma NothingBeforeKickoff(s: Store)
    ensures s.events == [] ==> !Pending(s.events, s.turns)
  {
  }

  lemma TransferClearsPending(s: Store, e: Event)
    requires JournalInv(s.team, s.events, s.turns) && CommitAllowed(s, e) && Starts(e) && |s.events| > 0
    ensures !Pending(s.events, s.turns)
  {
    hide StepAccepted, Accepted, TurnsValid, AllLinked, InputsRise, EarlierClosed, Numbered, Chained, EventPolicy, Pending;
    var all := s.events + [e];
    var n := |s.events|;
    assert StepAccepted(s.team, all, s.turns, n);
    StepTells(s.team, all, s.turns, n);
    assert all[n - 1] == s.events[n - 1] && all[n] == e;
    assert e.turn.value in Claims(s.turns, s.events[n - 1].id);
    CommitKeepsAccepted(s.team, s.events, e, s.turns);
    OnlyLastCloses(s.team, all, s.turns, n - 1);
    NothingPending(s.team, s.events, s.turns);
  }
}
