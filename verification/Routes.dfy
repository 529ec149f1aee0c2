/**
 A route to a role prepares private state for one Session generation, before the
 Session of the routing Turn is recorded. The next claim of the role must get
 exactly that generation.
 */
module Routes {
  import opened Model
  import opened Options
  import opened Journal
  import opened Turns
  import opened Replay
  import opened Invariant
  import opened Sessions
  import opened Machine
  import opened Endings
  import opened Safety
  import opened TurnClaims
  import F = Finalize
  import T = Theorems
  import L = Later
  import C = CommitProof
  import FS = FinalSaves
  import Guards

  // The generation that routing from Turn t to a role prepares.
  function Preflight(s: Store, t: nat, target: RoleId): nat
    requires t < |s.turns| && target in s.team.roles
  {
    RouteGeneration(s.team.roles[target].policy, Lookup(s.sessions, target),
                    if s.turns[t].rt.role == Some(target) then s.turns[t].rt.generation else None)
  }

  predicate ClaimsFor(w: Write, role: RoleId) { w.Claim? && w.rt.role == Some(role) }

  predicate NoClaimOf(ws: seq<Write>, role: RoleId) {
    forall i | 0 <= i < |ws| :: !ClaimsFor(ws[i], role)
  }

  // The Session generation the Turn was claimed with has been written.
  predicate GenerationRecorded(s: Store, t: nat)
    requires t < |s.turns|
  {
    && s.turns[t].rt.role.Some? && s.turns[t].rt.role.value in s.sessions
    && Some(s.sessions[s.turns[t].rt.role.value].generation) == s.turns[t].rt.generation
  }

  // ---- another role: nothing moves its Session

  predicate Rested(s: Store, role: RoleId) {
    forall u | 0 <= u < |s.turns| :: s.turns[u].rt.role == Some(role) ==> s.turns[u].rt.phase.Finalized?
  }

  lemma WriteKeepsRested(s: Store, w: Write, role: RoleId)
    requires Rested(s, role) && Permitted(s, w) && !ClaimsFor(w, role)
    ensures Rested(Apply(s, w), role) && Lookup(Apply(s, w).sessions, role) == Lookup(s.sessions, role)
  {
    hide CommitAllowed, GateOpens, SupervisorAllowed, AuthorizationAllowed, ValidRuntime, Linked, EndedBy, Continuous,
      SaveKeepsProcess, SettledBefore, CommitSession, MarkUnavailable, RecordCandidateFailure, Newest;
  }

  lemma {:induction false} RunKeepsRested(s: Store, ws: seq<Write>, x: Store, role: RoleId)
    requires Rested(s, role) && Run(s, ws, x) && NoClaimOf(ws, role)
    ensures Lookup(x.sessions, role) == Lookup(s.sessions, role)
    decreases |ws|
  {
    hide Permitted, Apply, Rested;
    if ws != [] {
      assert !ClaimsFor(ws[0], role);
      WriteKeepsRested(s, ws[0], role);
      RunKeepsRested(Apply(s, ws[0]), ws[1..], x, role);
    }
  }

  lemma OthersRest(s: Store, t: nat, role: RoleId)
    requires EarlierClosed(s.turns) && t == |s.turns| - 1 && s.turns[t].rt.role != Some(role)
    ensures Rested(s, role)
  {
  }

  // ---- the Turn's own role: the Turn is still its newest

  lemma {:induction false} RunKeepsNewest(s: Store, ws: seq<Write>, x: Store, t: nat, role: RoleId)
    requires Run(s, ws, x) && NoClaimOf(ws, role) && t < |s.turns| && s.turns[t].rt.role == Some(role) && Newest(s, t)
    ensures t < |x.turns| && x.turns[t].rt.role == Some(role) && Newest(x, t)
    ensures x.turns[t].rt.generation == s.turns[t].rt.generation && x.turns[t].rt.executor == s.turns[t].rt.executor
    ensures x.team == s.team
    decreases |ws|
  {
    hide Permitted, Apply, Newest;
    if ws != [] {
      assert !ClaimsFor(ws[0], role);
      WriteKeepsNewest(s, ws[0], t, role);
      RunKeepsNewest(Apply(s, ws[0]), ws[1..], x, t, role);
    }
  }

  lemma WriteKeepsNewest(s: Store, w: Write, t: nat, role: RoleId)
    requires Permitted(s, w) && !ClaimsFor(w, role) && t < |s.turns| && s.turns[t].rt.role == Some(role) && Newest(s, t)
    ensures
      var x := Apply(s, w);
      && t < |x.turns| && x.turns[t].rt.role == Some(role) && Newest(x, t) && x.team == s.team
      && x.turns[t].rt.generation == s.turns[t].rt.generation && x.turns[t].rt.executor == s.turns[t].rt.executor
  {
    L.WriteIsLater(s, w);
    hide Permitted, ClaimAllowed;
    L.LaterTurn(s, Apply(s, w), t);
    forall u | t < u < |Apply(s, w).turns| ensures Apply(s, w).turns[u].rt.role != Some(role) {
      if u < |s.turns| { L.LaterTurn(s, Apply(s, w), u); }
    }
  }

  // Prepared with one Session of the role and claimed with a later one, both in
  // step with the routing Turn.
  lemma OwnRouteMatches(policy: SessionPolicy, before: Option<Session>, after: Option<Session>, t: nat, generation: nat)
    requires InStep(policy, before, t, generation) && InStep(policy, after, t, generation)
    requires T.SessionMoves(before, after)
    ensures
      var lostBefore := before.Some? && before.value.ref.None? && before.value.generation == generation;
      var lostAfter := after.Some? && after.value.ref.None? && after.value.generation == generation;
      RouteGeneration(policy, before, Some(generation)) == LaunchGeneration(policy, after) <==>
        if policy.Fresh? then after.Some? && after.value.generation == generation else !(lostAfter && !lostBefore)
  {
  }

  lemma LostIs(s: Store, t: nat)
    requires Inv(s) && t < |s.turns| && s.turns[t].rt.executor.ByWorker? && Newest(s, t)
    requires s.turns[t].rt.role.Some? && s.turns[t].rt.generation.Some?
    ensures
      var current := Lookup(s.sessions, s.turns[t].rt.role.value);
      F.MadeUnavailable(s, t) <==>
        current.Some? && current.value.ref.None? && Some(current.value.generation) == s.turns[t].rt.generation
  {
    hide Inv;
    F.NewestInStep(s, t);
  }

  // What a route prepares is what the next claim of its target gets, however
  // the run goes on, with exactly two exceptions, both for a role routed to
  // itself: a Fresh role whose own generation is never recorded, and a role
  // that loses its resumed Session after the route was prepared.
  lemma PreflightMatchesClaim(team: Team, now: int, s: Store, ws: seq<Write>, x: Store, t: nat, target: RoleId, rt: Runtime)
    requires team.Valid() && Reachable(team, now, s) && Run(s, ws, x) && NoClaimOf(ws, target)
    requires t < |s.turns| && TerminalFor(s.events, t).None?
    requires ClaimAllowed(x, rt) && rt.role == Some(target) && rt.executor.ByWorker? && target in team.roles
    ensures s.team == team && t < |x.turns|
    ensures rt.generation == Some(Preflight(s, t, target)) <==>
              || s.turns[t].rt.role != Some(target)
              || (if team.roles[target].policy.Fresh? then GenerationRecorded(x, t)
                  else !(F.MadeUnavailable(x, t) && !F.MadeUnavailable(s, t)))
  {
    hide Inv, TerminalFor, ClaimAllowed, Permitted, Apply, F.MadeUnavailable, InStep;
    RunReaches(team, now, s, ws, x);
    T.ReachableTeam(team, now, s);
    T.ReachableTeam(team, now, x);
    T.RunIsLater(s, ws, x);
    L.LaterTurn(s, x, t);
    Guards.UnendedIsOpen(s, t);
    ClaimGeneration(x, rt, target);
    if s.turns[t].rt.role == Some(target) {
      OpenIsWorkers(s, t, target);
      RunKeepsNewest(s, ws, x, t, target);
      OwnRoute(s, ws, x, t, target);
    } else {
      ClosedBefore(s, t);
      OthersRest(s, t, target);
      RunKeepsRested(s, ws, x, target);
    }
  }

  lemma OwnRoute(s: Store, ws: seq<Write>, x: Store, t: nat, target: RoleId)
    requires Inv(s) && Inv(x) && Run(s, ws, x) && x.team == s.team && target in s.team.roles
    requires t < |s.turns| && s.turns[t].rt.executor.ByWorker? && s.turns[t].rt.role == Some(target) && Newest(s, t)
    requires t < |x.turns| && x.turns[t].rt.executor.ByWorker? && x.turns[t].rt.role == Some(target) && Newest(x, t)
    requires s.turns[t].rt.generation.Some? && x.turns[t].rt.generation == s.turns[t].rt.generation
    ensures Preflight(s, t, target) == LaunchGeneration(s.team.roles[target].policy, Lookup(x.sessions, target)) <==>
              if s.team.roles[target].policy.Fresh? then GenerationRecorded(x, t)
              else !(F.MadeUnavailable(x, t) && !F.MadeUnavailable(s, t))
  {
    hide Inv, Run, F.MadeUnavailable, InStep, RouteGeneration, LaunchGeneration, Newest;
    F.NewestInStep(s, t);
    F.NewestInStep(x, t);
    T.SessionsOnlyMoveOn(s, ws, x, target);
    LostIs(s, t);
    LostIs(x, t);
    OwnRouteMatches(s.team.roles[target].policy, Lookup(s.sessions, target), Lookup(x.sessions, target), t,
                    s.turns[t].rt.generation.value);
  }

  lemma {:induction false} RunReaches(team: Team, now: int, s: Store, ws: seq<Write>, x: Store)
    requires team.Valid() && Reachable(team, now, s) && Run(s, ws, x)
    ensures Reachable(team, now, x) && Inv(s) && Inv(x)
    decreases |ws|
  {
    hide Inv, Permitted, Apply;
    if ws == [] {
      ReachableInv(team, now, s);
    } else {
      ReachesOneMore(team, now, s, ws[0]);
      RunReaches(team, now, Apply(s, ws[0]), ws[1..], x);
      ReachableInv(team, now, s);
    }
  }

  lemma ClaimGeneration(x: Store, rt: Runtime, target: RoleId)
    requires ClaimAllowed(x, rt) && rt.role == Some(target) && rt.executor.ByWorker?
    ensures target in x.team.roles && x.team.roles[target].binding.External?
    ensures rt.generation == Some(LaunchGeneration(x.team.roles[target].policy, Lookup(x.sessions, target)))
  {
    hide LaunchGeneration, InputFits;
  }

  lemma OpenIsWorkers(s: Store, t: nat, target: RoleId)
    requires Inv(s) && Guards.Open(s, t) && s.turns[t].rt.role == Some(target)
    requires target in s.team.roles && s.team.roles[target].binding.External?
    ensures s.turns[t].rt.executor.ByWorker? && s.turns[t].rt.generation.Some? && Newest(s, t)
  {
    hide Inv;
    FS.TurnNamed(s, t);
  }

  lemma ClosedBefore(s: Store, t: nat)
    requires Inv(s) && Guards.Open(s, t)
    ensures EarlierClosed(s.turns) && t == |s.turns| - 1
  {
    hide ProcInv, PolicyInv, SessionInv, CountInv, Accepted, ValidRuntime, Linked;
  }

  // ---- a route that is taken

  // No Turn is claimed between a route and the claim of the event it led to.
  lemma NoClaimBetween(s: Store, x: Store, t: nat, e: Event, rt: Runtime)
    requires Inv(s) && Inv(x) && L.Later(s, x) && Guards.Open(s, t) && t < |x.turns|
    requires TerminalFor(x.events, t) == Some(e) && ClaimAllowed(x, rt) && rt.input == e.id
    ensures |x.turns| == |s.turns|
  {
    hide Inv, TerminalFor;
    ClosedBefore(s, t);
    L.LaterTurn(s, x, t);
    TerminalIsSuccessor(x, t);
    FS.NamedAt(x, x.turns[t].rt.input.n);
    TailClaimed(x, rt);
    if |x.turns| > |s.turns| { LaterInput(x, t, |x.turns| - 1); }
  }

  lemma TailClaimed(x: Store, rt: Runtime)
    requires Inv(x) && ClaimAllowed(x, rt)
    ensures |x.events| > 0 && rt.input == x.events[|x.events| - 1].id && rt.input.n == |x.events|
    ensures forall u | 0 <= u < |x.turns| :: x.turns[u].rt.input.n < |x.events|
  {
    hide Inv, ValidRuntime;
    FS.NamedAt(x, |x.events| - 1);
    forall u | 0 <= u < |x.turns| ensures x.turns[u].rt.input.n < |x.events| {
      Guards.InputPosition(x, u);
      assert u !in Claims(x.turns, rt.input);
    }
  }

  lemma LaterInput(x: Store, t: nat, u: nat)
    requires Inv(x) && t < u < |x.turns|
    ensures x.turns[t].rt.input.n < x.turns[u].rt.input.n
  {
    hide ProcInv, PolicyInv, SessionInv, CountInv, Accepted, ValidRuntime, Linked;
  }

  lemma {:induction false} SameCountNoClaim(s: Store, ws: seq<Write>, x: Store, role: RoleId)
    requires Run(s, ws, x)
    ensures |s.turns| <= |x.turns|
    ensures |s.turns| == |x.turns| ==> NoClaimOf(ws, role)
    decreases |ws|
  {
    hide Permitted;
    if ws != [] {
      SameCountNoClaim(Apply(s, ws[0]), ws[1..], x, role);
      forall i | 0 <= i < |ws| && |s.turns| == |x.turns| ensures !ClaimsFor(ws[i], role) {
        if i > 0 { assert ws[i] == ws[1..][i - 1]; }
      }
    }
  }

  // A Handoff of a Worker's Turn to its own role leaves that Turn's generation
  // recorded, and available if the role resumes Sessions.
  lemma HandedOnIsRecorded(x: Store, t: nat, e: Event)
    requires Inv(x) && t < |x.turns| && TerminalFor(x.events, t) == Some(e) && e.body.Handoff? && e.to == x.turns[t].rt.role
    requires x.turns[t].rt.executor.ByWorker? && Newest(x, t) && x.turns[t].rt.role.Some?
    ensures GenerationRecorded(x, t) && !F.MadeUnavailable(x, t)
  {
    hide Inv, TerminalFor, Newest;
    FS.EndingKind(x, t, e);
    TerminalIsSuccessor(x, t);
    Guards.InputPosition(x, t);
    FS.NamedAt(x, x.turns[t].rt.input.n);
    NotReturned(x, t, e.id.n - 1);
    RouteIsHeld(x, t, e);
  }

  lemma RouteIsHeld(x: Store, t: nat, e: Event)
    requires Inv(x) && t < |x.turns| && 1 <= e.id.n <= |x.events| && x.events[e.id.n - 1] == e && e.turn == Some(t)
    requires e.body.Handoff? && x.turns[t].rt.executor.ByWorker? && Newest(x, t)
    ensures Routed(x, t, e.body.why) && GenerationRecorded(x, t)
  {
    hide JournalInv, ProcInv, PolicyInv, CountInv, Newest, StepHeld, SettledOnce;
    assert RouteHeld(x, x.events[e.id.n - 1]);
    var role := x.turns[t].rt.role.value;
    assert SessionOk(x.team, x.turns, role, x.sessions[role]);
  }

  // The system returns a failed candidate to another role only.
  lemma NotReturned(x: Store, t: nat, k: nat)
    requires Inv(x) && 0 < k < |x.events| && t < |x.turns| && x.events[k].turn == Some(t) && x.events[k].body.Handoff?
    requires x.events[k].to == x.turns[t].rt.role
    ensures !x.events[k].body.why.CandidateFailed?
  {
    hide Inv, CountBefore, EvidenceAllows;
    T.AcceptedAt(x, k);
  }

  // For a route that is taken there is no exception: the claim of the Handoff
  // or Resume that ended the routing Turn gets the prepared generation.
  lemma TakenRouteMatches(team: Team, now: int, s: Store, ws: seq<Write>, x: Store, t: nat, e: Event, target: RoleId, rt: Runtime)
    requires team.Valid() && Reachable(team, now, s) && Run(s, ws, x)
    requires t < |s.turns| && TerminalFor(s.events, t).None?
    requires TerminalFor(x.events, t) == Some(e) && (e.body.Handoff? || e.body.Resume?)
    requires ClaimAllowed(x, rt) && rt.input == e.id && rt.role == Some(target) && rt.executor.ByWorker?
    requires target in team.roles
    ensures s.team == team && rt.generation == Some(Preflight(s, t, target))
  {
    hide Inv, TerminalFor, ClaimAllowed, Permitted, Apply, F.MadeUnavailable, InStep, Preflight;
    RunReaches(team, now, s, ws, x);
    T.ReachableTeam(team, now, s);
    T.ReachableTeam(team, now, x);
    T.RunIsLater(s, ws, x);
    L.LaterTurn(s, x, t);
    Guards.UnendedIsOpen(s, t);
    NoClaimBetween(s, x, t, e, rt);
    SameCountNoClaim(s, ws, x, target);
    PreflightMatchesClaim(team, now, s, ws, x, t, target, rt);
    if s.turns[t].rt.role == Some(target) {
      ClaimGeneration(x, rt, target);
      OpenIsWorkers(s, t, target);
      RunKeepsNewest(s, ws, x, t, target);
      ClaimedTarget(x, t, e, rt);
      HandedOnIsRecorded(x, t, e);
    }
  }

  lemma ClaimedTarget(x: Store, t: nat, e: Event, rt: Runtime)
    requires Inv(x) && t < |x.turns| && x.turns[t].rt.executor.ByWorker?
    requires TerminalFor(x.events, t) == Some(e) && (e.body.Handoff? || e.body.Resume?)
    requires ClaimAllowed(x, rt) && rt.input == e.id && rt.executor.ByWorker?
    ensures e.body.Handoff? && e.to == rt.role
  {
    hide Inv, TerminalFor;
    FS.EndingKind(x, t, e);
    FS.TurnNamed(x, t);
    TailClaimed(x, rt);
  }
}
