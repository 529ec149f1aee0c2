/**
 The program checks the clock and the limits before it commits; the validator
 checks them again on the stored, millisecond-truncated timestamp. Both agree.
 */
module Guards {
  import opened Model
  import opened Options
  import opened Journal
  import opened Turns
  import opened Replay
  import opened Invariant
  import opened Stability
  import opened Machine
  import opened Endings
  import C = CommitProof
  import S = SaveProof

  // The deadline is a whole number of milliseconds, so truncating a timestamp
  // never moves it across the deadline.
  lemma StampKeepsSide(clock: int, deadline: int)
    ensures Stamp(clock) >= deadline <==> clock >= deadline * 1000
  {
  }

  function NextEvent(events: seq<Event>, body: Body, from: Option<RoleId>, to: Option<RoleId>, turn: Option<nat>, created: int)
    : Event
  {
    Event(EventId(body.Kind(), |events| + 1),
          TailId(events, |events|),
          body, from, to, turn, created)
  }

  // What commit_event asks the validator.
  function Verdict(s: Store, e: Event): Result<(Status, Option<RoleId>)> {
    ValidateTransition(s.team, e, CursorAt(s.events, |s.events|), BusinessCount(s.turns, |s.turns|), s.turns)
  }

  // A commit that the validator accepts is a permitted write.
  lemma VerdictAllows(s: Store, body: Body, from: Option<RoleId>, to: Option<RoleId>, turn: Option<nat>, created: int)
    requires Inv(s) && created <= Stamp(s.clock)
    requires EventPolicy(s.team, NextEvent(s.events, body, from, to, turn, created), s.turns, s.dead)
    requires RouteHeld(s, NextEvent(s.events, body, from, to, turn, created))
    requires Verdict(s, NextEvent(s.events, body, from, to, turn, created)).Ok?
    ensures CommitAllowed(s, NextEvent(s.events, body, from, to, turn, created))
  {
    hide ValidateTransition, ProcInv, PolicyInv, SessionInv, CountInv, ValidRuntime, Linked, Accepted, RouteHeld;
    var e := NextEvent(s.events, body, from, to, turn, created);
    var n := |s.events|;
    C.CountsCoincide(s.events, s.turns);
    PrefixCursor(s.events, e, n);
    assert (s.events + [e])[n] == e;
    if n == 0 {
      FirstIsKickoff(s.team, e, BusinessCount(s.turns, |s.turns|), s.turns);
    } else {
      LaterIsNotKickoff(s.team, e, CursorAt(s.events, n), BusinessCount(s.turns, |s.turns|), s.turns);
    }
    hide EventPolicy;
    ChainGrows(s.events, e);
  }

  lemma ChainGrows(events: seq<Event>, e: Event)
    requires Chained(events) && e.id == EventId(e.body.Kind(), |events| + 1)
    requires e.prev == TailId(events, |events|)
    ensures Chained(events + [e])
  {
    var all := events + [e];
    forall k | 0 <= k < |all| ensures all[k].prev == TailId(all, k) {
      if k < |events| {
        assert all[k] == events[k];
        assert events[k].prev == TailId(events, k);
      }
      assert k > 0 ==> all[k - 1] == events[k - 1];
    }
  }

  // A Turn no event has ended yet: the last one, claimed on the journal tail.
  ghost predicate Open(s: Store, t: nat) {
    && t < |s.turns| && t == |s.turns| - 1
    && s.turns[t].rt.input.n == |s.events|
    && |s.events| > 0 && s.events[|s.events| - 1].id == s.turns[t].rt.input
    && InputFits(s.turns[t].rt, s.events[|s.events| - 1])
    && s.turns[t].rt.terminal.None? && !Ended(s.turns[t].rt.phase)
  }

  lemma FinalizedHasTerminal(s: Store, t: nat)
    requires Inv(s) && t < |s.turns| && s.turns[t].rt.terminal.Some?
    ensures TerminalFor(s.events, t).Some? && TerminalFor(s.events, t).value.id == s.turns[t].rt.terminal.value
  {
    hide ProcInv, PolicyInv, SessionInv, CountInv, Accepted, ValidRuntime;
    assert Linked(s.events, s.turns[t].rt);
    var k := s.turns[t].rt.terminal.value.n - 1;
    hide Inv;
    EndsAt(s, t, k);
    TerminalIsSuccessor(s, t);
  }

  lemma UnendedIsOpen(s: Store, t: nat)
    requires Inv(s) && t < |s.turns| && TerminalFor(s.events, t).None?
    ensures Open(s, t)
  {
    hide ProcInv, PolicyInv, SessionInv, CountInv, Accepted;
    assert ValidRuntime(s.team, s.turns[t].rt);
    assert Linked(s.events, s.turns[t].rt);
    if s.turns[t].rt.terminal.Some? { FinalizedHasTerminal(s, t); }
    assert t == |s.turns| - 1;
    hide ValidRuntime, Linked;
    NoEventBehind(s, t);
  }

  // While a Turn is unended nothing is committed behind its input.
  lemma NoEventBehind(s: Store, t: nat)
    requires Inv(s) && t < |s.turns| && TerminalFor(s.events, t).None?
    ensures s.turns[t].rt.input.n == |s.events|
  {
    TerminalIsSuccessor(s, t);
    var n := s.turns[t].rt.input.n;
    if n < |s.events| {
      InputPosition(s, t);
      EveryEventEndsATurn(s, n);
      ClaimantEndsIt(s, t);
    }
  }

  lemma InputPosition(s: Store, t: nat)
    requires Inv(s) && t < |s.turns|
    ensures 1 <= s.turns[t].rt.input.n <= |s.events| && s.events[s.turns[t].rt.input.n - 1].id == s.turns[t].rt.input
  {
    hide ProcInv, PolicyInv, SessionInv, CountInv, Accepted, ValidRuntime;
    assert Linked(s.events, s.turns[t].rt);
  }

  lemma ClaimantEndsIt(s: Store, t: nat)
    requires Inv(s) && t < |s.turns| && 0 < s.turns[t].rt.input.n < |s.events|
    ensures s.events[s.turns[t].rt.input.n].turn == Some(t)
  {
    hide ProcInv, PolicyInv, SessionInv, CountInv, ValidRuntime, Linked, StepAccepted;
    InputPosition(s, t);
    var n := s.turns[t].rt.input.n;
    C.AllSteps(s.team, s.events, s.turns);
    hide Accepted;
    assert StepFacts(s.events, s.turns, n);
    assert t in Claims(s.turns, s.events[n - 1].id);
    if s.events[n].turn.Some? {
      var u := s.events[n].turn.value;
      assert s.turns[u].rt.input == s.turns[t].rt.input;
      SameInput(s.turns, t, u);
    }
  }

  lemma SameInput(turns: seq<Turn>, i: nat, j: nat)
    requires InputsRise(turns) && i < |turns| && j < |turns| && turns[i].rt.input == turns[j].rt.input
    ensures i == j
  {
  }

  // ---- acceptance of what the guards decide

  lemma OpenCursor(s: Store, t: nat)
    requires Inv(s) && Open(s, t) && s.turns[t].rt.business.Some?
    ensures
      var c := CursorAt(s.events, |s.events|);
      && c.status == RunningRun && c.owner == s.turns[t].rt.role && c.owner.Some? && c.owner.value in s.team.roles
      && c.previous == Some(s.events[|s.events| - 1]) && c.kickoff == Some(s.events[0])
      && t !in c.terminals
      && c.previous.value.created <= Stamp(s.clock)
  {
    hide ProcInv, PolicyInv, SessionInv, CountInv, Accepted;
    assert ValidRuntime(s.team, s.turns[t].rt);
    forall j | 0 <= j < |s.events| ensures s.events[j].turn != Some(t) {
      if s.events[j].turn == Some(t) { EndsAt(s, t, j); }
    }
  }

  lemma BlockAccepted(s: Store, t: nat, reason: BlockReason, limit: Option<LimitReason>, created: int)
    requires Inv(s) && Open(s, t) && s.turns[t].rt.business.Some?
    requires s.events[|s.events| - 1].created <= created
    ensures
      var e := NextEvent(s.events, Block(reason, limit), s.turns[t].rt.role, None, Some(t), created);
      Verdict(s, e).Ok? <==> BlockTimely(s.team, s.turns[t].rt, reason, limit, created, DeadlineOf(s.team, s.events[0]))
  {
    hide Inv, ValidateBlock;
    OpenCursor(s, t);
    var e := NextEvent(s.events, Block(reason, limit), s.turns[t].rt.role, None, Some(t), created);
    BlockFits(s.team, e, s.turns[t].rt, DeadlineOf(s.team, s.events[0]));
  }

  // When the validator takes a technical Block for the open Turn.
  predicate BlockTimely(team: Team, rt: Runtime, reason: BlockReason, limit: Option<LimitReason>, created: int, deadline: int) {
    if reason.Limit? then
      limit.Some? && (if limit.value.Deadline? then created >= deadline
                      else created < deadline && rt.business == Some(team.maxTurns))
    else limit.None? && created < deadline
  }

  lemma BlockFits(team: Team, e: Event, rt: Runtime, deadline: int)
    requires e.body.Block? && e.to.None?
    ensures ValidateBlock(team, e, rt, deadline).Ok? <==>
              BlockTimely(team, rt, e.body.reason, e.body.limit, e.created, deadline)
  {
  }

  lemma CompleteAccepted(s: Store, t: nat, created: int)
    requires Inv(s) && Open(s, t) && s.turns[t].rt.business.Some?
    requires s.events[|s.events| - 1].created <= created < DeadlineOf(s.team, s.events[0])
    ensures Verdict(s, NextEvent(s.events, Complete, s.turns[t].rt.role, None, Some(t), created)).Ok?
  {
    hide Inv, ValidateHandoff, ValidateBlock, ValidateCancel, ValidateResume;
    OpenCursor(s, t);
  }

  lemma HandoffAccepted(s: Store, t: nat, why: HandoffWhy, to: RoleId, created: int)
    requires Inv(s) && Open(s, t) && s.turns[t].rt.business.Some? && to in s.team.roles
    requires s.events[|s.events| - 1].created <= created < DeadlineOf(s.team, s.events[0])
    requires BusinessCount(s.turns, |s.turns|) < s.team.maxTurns
    requires why.Continuation? ==> s.turns[t].rt.role == Some(to) && s.team.roles[to].binding.External?
    requires why.CandidateFailed? && s.turns[t].rt.role.Some? && s.turns[t].rt.role.value in s.team.roles ==>
               && s.turns[t].rt.role != Some(to)
               && s.team.roles[s.turns[t].rt.role.value] == Role(External, Fresh)
    ensures Verdict(s, NextEvent(s.events, Handoff(why), s.turns[t].rt.role, Some(to), Some(t), created)).Ok?
  {
    hide Inv, ValidateHandoff;
    OpenCursor(s, t);
    OpenHasNoEnding(s, t);
    OpenNumber(s, t);
    var e := NextEvent(s.events, Handoff(why), s.turns[t].rt.role, Some(to), Some(t), created);
    HandoffFits(s.team, e, s.turns[t].rt.role.value, s.turns[t].rt, DeadlineOf(s.team, s.events[0]));
  }

  lemma HandoffFits(team: Team, e: Event, owner: RoleId, rt: Runtime, deadline: int)
    requires e.body.Handoff? && owner in team.roles && e.from == Some(owner)
    requires e.to.Some? && e.created < deadline
    requires e.body.why.Continuation? ==> e.to == Some(owner) && team.roles[owner].binding.External?
    requires e.body.why.CandidateFailed? ==> e.to != Some(owner) && team.roles[owner] == Role(External, Fresh)
    requires rt.ending == NotEnded && rt.business.Some? && rt.business.value < team.maxTurns
    ensures ValidateHandoff(team, e, owner, rt, deadline) == Ok((RunningRun, e.to))
  {
  }

  lemma OpenHasNoEnding(s: Store, t: nat)
    requires Inv(s) && Open(s, t)
    ensures s.turns[t].rt.ending == NotEnded && s.turns[t].rt.evidence == NoEvidence
  {
    hide ProcInv, PolicyInv, SessionInv, CountInv, Accepted, Linked;
    assert ValidRuntime(s.team, s.turns[t].rt);
  }

  // The open business Turn carries the largest business number.
  lemma OpenNumber(s: Store, t: nat)
    requires Inv(s) && Open(s, t) && s.turns[t].rt.business.Some?
    ensures s.turns[t].rt.business.value == BusinessCount(s.turns, |s.turns|)
  {
    hide ProcInv, PolicyInv, SessionInv, CountInv, Accepted, Linked, ValidRuntime;
  }
}
