/** The complete scan of a Run directory, and why it never refuses a reachable one. */
module Scan {
  import opened Model
  import opened Options
  import opened Journal
  import opened Turns
  import opened Replay
  import opened Invariant
  import opened Sessions
  import opened Machine
  import C = CommitProof

  // The business numbers in Turn order.
  function BusinessNumbers(turns: seq<Turn>, n: nat): seq<nat>
    requires n <= |turns|
  {
    if n == 0 then []
    else
      var b := turns[n - 1].rt.business;
      BusinessNumbers(turns, n - 1) + (if b.Some? then [b.value] else [])
  }

  // `business == list(range(1, len(business) + 1))`
  predicate Contiguous(turns: seq<Turn>) {
    var numbers := BusinessNumbers(turns, |turns|);
    forall i | 0 <= i < |numbers| :: numbers[i] == i + 1
  }

  predicate DistinctInputs(turns: seq<Turn>) {
    forall i, j | 0 <= i < j < |turns| :: turns[i].rt.input != turns[j].rt.input
  }

  predicate SessionLineage(team: Team, turns: seq<Turn>, role: RoleId, session: Session) {
    && role in team.roles && team.roles[role].binding.External? && ValidSession(session)
    && Lineage(turns, role, session, session.created)
    && Lineage(turns, role, session, session.updated)
    && turns[session.created].rt.business.Some? && turns[session.updated].rt.business.Some?
    && turns[session.created].rt.business.value <= turns[session.updated].rt.business.value
    && (session.ref.Some? && turns[session.updated].rt.evidence.ref.Some? ==>
          turns[session.updated].rt.evidence.ref == session.ref)
  }

  function ScanVerdict(s: Store): Result<(Status, Option<RoleId>)> {
    if !Chained(s.events) then Err(BrokenChain)
    else if |s.events| > 0 && !s.events[0].body.Kickoff? then Err(BadKickoff)
    else if !TurnsValid(s.team, s.turns) then Err(BadRuntime)
    else if !Contiguous(s.turns) then Err(BadTurns)
    else if !DistinctInputs(s.turns) then Err(ManyClaims)
    else match ReplayJournal(s.team, s.events, s.turns, |s.events|)
      case Err(why) => Err(why)
      case Ok(c) =>
        if !AllLinked(s.events, s.turns) then Err(BadLink)
        else if !(forall role | role in s.sessions :: SessionLineage(s.team, s.turns, role, s.sessions[role])) then Err(BadSession)
        else Ok((c.status, c.owner))
  }

  lemma {:induction false} NumbersAre(turns: seq<Turn>, n: nat)
    requires Numbered(turns) && n <= |turns|
    ensures |BusinessNumbers(turns, n)| == BusinessCount(turns, n)
    ensures forall i | 0 <= i < |BusinessNumbers(turns, n)| :: BusinessNumbers(turns, n)[i] == i + 1
  {
    if n > 0 { NumbersAre(turns, n - 1); }
  }

  lemma {:induction false} CountRises(turns: seq<Turn>, i: nat, j: nat)
    requires i <= j <= |turns|
    ensures BusinessCount(turns, i) <= BusinessCount(turns, j)
    decreases j
  {
    if i < j { CountRises(turns, i, j - 1); }
  }

  lemma LineageHolds(s: Store, role: RoleId)
    requires TurnsValid(s.team, s.turns) && Numbered(s.turns) && ProcInv(s) && SessionInv(s) && role in s.sessions
    ensures SessionLineage(s.team, s.turns, role, s.sessions[role])
  {
    hide StepHeld, ClaimHeld, LaunchOk, SettledOnce, RouteHeld;
    var session := s.sessions[role];
    assert SessionOk(s.team, s.turns, role, session);
    assert ValidRuntime(s.team, s.turns[session.created].rt) && ValidRuntime(s.team, s.turns[session.updated].rt);
    assert ProcOk(s.turns[session.updated], session.updated, s.dead, s.passed);
    CountRises(s.turns, session.created, session.updated);
  }

  // A scan of any state satisfying the invariant succeeds, and reports the
  // status its last event announces.
  lemma InvScans(s: Store)
    requires Inv(s)
    ensures ScanVerdict(s) == Ok((CursorAt(s.events, |s.events|).status, CursorAt(s.events, |s.events|).owner))
  {
    hide ValidRuntime, ProcInv, PolicyInv, SessionInv, CountInv, Linked, ValidateTransition;
    NumbersAre(s.turns, |s.turns|);
    ReplayAccepts(s.team, s.events, s.turns);
    forall role | role in s.sessions ensures SessionLineage(s.team, s.turns, role, s.sessions[role]) {
      LineageHolds(s, role);
    }
    hide SessionLineage;
    if |s.events| > 0 { assert StepAccepted(s.team, s.events, s.turns, 0); }
    forall i, j | 0 <= i < j < |s.turns| ensures s.turns[i].rt.input != s.turns[j].rt.input {
      assert s.turns[i].rt.input.n < s.turns[j].rt.input.n;
    }
  }

  // A Runtime that contradicts the event it names stops every later scan.
  lemma UnlinkedRefused(s: Store, t: nat)
    requires t < |s.turns| && !Linked(s.events, s.turns[t].rt)
    ensures ScanVerdict(s).Err?
  {
  }
}
