/** What holds in every state a Run can reach, and between any two states of a run. */
module Theorems {
  import opened Model
  import opened Options
  import opened Journal
  import opened Turns
  import opened Replay
  import opened Invariant
  import opened Sessions
  import opened Machine
  import opened Endings
  import opened Safety
  import opened TurnClaims
  import C = CommitProof
  import D = Delivery
  import F = Finalize
  import M = Management
  import O = Origin
  import L = Later
  import Scan
  import Limits
  import Guards

  // A scan never refuses what the program itself wrote, at any crash point.
  lemma EveryReachableStoreScans(team: Team, now: int, s: Store)
    requires team.Valid() && Reachable(team, now, s)
    ensures Scan.ScanVerdict(s) == Ok((ProjectedStatus(s), ProjectedOwner(s)))
  {
    hide Inv, Scan.ScanVerdict;
    ReachableInv(team, now, s);
    Scan.InvScans(s);
  }

  // Limits: business Turns, journal length, and room for every pending claim.
  lemma RunsAreBounded(team: Team, now: int, s: Store)
    requires team.Valid() && Reachable(team, now, s)
    ensures BusinessCount(s.turns, |s.turns|) <= team.maxTurns
    ensures |s.events| <= 2 * team.maxTurns + 1
    ensures |s.events| > 0 && Starts(s.events[|s.events| - 1]) && Claims(s.turns, s.events[|s.events| - 1].id) == {} ==>
              BusinessCount(s.turns, |s.turns|) < team.maxTurns
  {
    hide Inv;
    ReachableInv(team, now, s);
    ReachableTeam(team, now, s);
    Limits.Bounded(s);
  }

  lemma ReachableTeam(team: Team, now: int, s: Store)
    requires Reachable(team, now, s)
    ensures s.team == team
  {
    hide Permitted, Apply;
    var ws :| Run(Initial(team, now), ws, s);
    RunIsLater(Initial(team, now), ws, s);
  }

  // A Turn is ended by the event right behind its input, if by any; every event
  // but the Kickoff and an unclaimed Cancel ends exactly one Turn.
  lemma EndingsFollowInputs(team: Team, now: int, s: Store, k: nat)
    requires team.Valid() && Reachable(team, now, s) && 0 < k < |s.events|
    ensures s.events[k].turn.Some? ==>
              && s.events[k].turn.value < |s.turns| && s.turns[s.events[k].turn.value].rt.input.n == k
              && forall j | 0 <= j < |s.events| :: s.events[j].turn == s.events[k].turn ==> j == k
    ensures s.events[k].turn.None? ==> s.events[k].body.Cancel? && Claims(s.turns, s.events[k - 1].id) == {}
  {
    hide Inv;
    ReachableInv(team, now, s);
    EveryEventEndsATurn(s, k);
    if s.events[k].turn.Some? {
      var t := s.events[k].turn.value;
      forall j | 0 <= j < |s.events| && s.events[j].turn == Some(t) ensures j == k {
        EndsAt(s, t, j);
        EndsAt(s, t, k);
      }
      EndsAt(s, t, k);
    }
  }

  // One active Turn at most, one claim per event, and an active business Turn
  // carries the largest number.
  lemma ClaimsAreUnique(team: Team, now: int, s: Store, id: EventId)
    requires team.Valid() && Reachable(team, now, s)
    ensures |ActiveTurns(s.turns)| <= 1 && |Claims(s.turns, id)| <= 1
    ensures forall t | t in ActiveTurns(s.turns) ::
              t == |s.turns| - 1 && (s.turns[t].rt.business.Some? ==> s.turns[t].rt.business.value == BusinessCount(s.turns, |s.turns|))
    ensures Scan.Contiguous(s.turns)
  {
    hide Inv;
    ReachableInv(team, now, s);
    OneActiveOneClaimant(s, id);
    EveryReachableStoreScans(team, now, s);
    LastNumbered(s);
  }

  lemma LastNumbered(s: Store)
    requires Inv(s)
    ensures |s.turns| > 0 && s.turns[|s.turns| - 1].rt.business.Some? ==>
              s.turns[|s.turns| - 1].rt.business.value == BusinessCount(s.turns, |s.turns|)
  {
    hide ProcInv, PolicyInv, SessionInv, CountInv, Accepted, Linked, ValidRuntime;
  }

  // A Turn that was launched, or began on the Origin side, on a Handoff found
  // the workspace exactly as the sender had frozen it.
  lemma LaunchesAreContinuous(team: Team, now: int, s: Store, t: nat)
    requires team.Valid() && Reachable(team, now, s) && t < |s.turns| && Launched(s.turns[t].rt)
    requires 1 <= s.turns[t].rt.input.n <= |s.events| && s.events[s.turns[t].rt.input.n - 1].body.Handoff?
    ensures
      var sender := s.events[s.turns[t].rt.input.n - 1].turn;
      && sender.Some? && sender.value < |s.turns|
      && s.turns[sender.value].rt.after.Some? && s.turns[t].rt.before == s.turns[sender.value].rt.after
  {
    hide Inv, Launched, Continuous;
    ReachableInv(team, now, s);
    LaunchedContinuous(s, t);
    ContinuousMeans(s, t);
  }

  lemma LaunchedContinuous(s: Store, t: nat)
    requires Inv(s) && t < |s.turns| && Launched(s.turns[t].rt)
    ensures Continuous(s.events, s.turns, s.turns[t].rt)
  {
    hide JournalInv, ProcInv, SessionInv, CountInv, Launched, Continuous;
  }

  lemma ContinuousMeans(s: Store, t: nat)
    requires t < |s.turns| && Continuous(s.events, s.turns, s.turns[t].rt)
    requires 1 <= s.turns[t].rt.input.n <= |s.events| && s.events[s.turns[t].rt.input.n - 1].body.Handoff?
    ensures
      var sender := s.events[s.turns[t].rt.input.n - 1].turn;
      && sender.Some? && sender.value < |s.turns|
      && s.turns[sender.value].rt.after.Some? && s.turns[t].rt.before == s.turns[sender.value].rt.after
  {
  }

  // Role-selected Handoffs are edges of the frozen allow-list, and formal
  // actions of read-only roles left the workspace as it was.
  lemma PolicyHolds(team: Team, now: int, s: Store, k: nat)
    requires team.Valid() && Reachable(team, now, s) && k < |s.events|
    ensures
      var e := s.events[k];
      && (e.body == Handoff(Selected) ==> e.from.Some? && e.to.Some? && team.AllowsHandoff(e.from.value, e.to.value))
      && (Formal(e.body) && e.turn.Some? && e.from.Some? && e.from.value in team.readOnly ==>
            e.turn.value < |s.turns| && s.turns[e.turn.value].rt.before.Some?
            && s.turns[e.turn.value].rt.before == s.turns[e.turn.value].rt.after)
  {
    ReachableInv(team, now, s);
    ReachableTeam(team, now, s);
    hide JournalInv, ProcInv, SessionInv, CountInv, FrozenFor;
    assert EventPolicy(s.team, s.events[k], s.turns, s.dead);
  }

  // ---- between two states of one run

  lemma {:induction false} RunIsLater(a: Store, ws: seq<Write>, b: Store)
    requires Run(a, ws, b)
    ensures L.Later(a, b)
    decreases |ws|
  {
    hide Permitted, Apply, L.Later;
    if ws == [] {
      L.LaterSelf(a);
    } else {
      L.WriteIsLater(a, ws[0]);
      RunIsLater(Apply(a, ws[0]), ws[1..], b);
      L.LaterTrans(a, Apply(a, ws[0]), b);
    }
  }

  // The nonce, the process identities, the frozen After Facts and the ending of
  // a Turn are each set once, and the journal only grows.
  lemma SetOnce(a: Store, ws: seq<Write>, b: Store, t: nat)
    requires Run(a, ws, b) && t < |a.turns|
    ensures a.events <= b.events && t < |b.turns|
    ensures KeptOnce(a.turns[t].rt.nonce, b.turns[t].rt.nonce) && KeptOnce(a.turns[t].rt.runner, b.turns[t].rt.runner)
    ensures KeptOnce(a.turns[t].auth, b.turns[t].auth) && KeptOnce(a.turns[t].rt.after, b.turns[t].rt.after)
    ensures KeptOnce(a.turns[t].rt.terminal, b.turns[t].rt.terminal) && KeptOnce(a.turns[t].rt.outcome, b.turns[t].rt.outcome)
    ensures a.turns[t].rt.phase.Finalized? ==> b.turns[t].rt.phase.Finalized?
  {
    RunIsLater(a, ws, b);
    L.LaterTurn(a, b, t);
  }

  // ---- sessions

  predicate SessionMoves(a: Option<Session>, b: Option<Session>) {
    a.Some? ==>
      && b.Some? && a.value.generation <= b.value.generation
      && (b.value.generation == a.value.generation ==>
            b.value.created == a.value.created && (b.value.ref == a.value.ref || b.value.ref.None?))
  }

  // One write moves a role's generation by at most one.
  predicate SessionSteps(a: Option<Session>, b: Option<Session>) {
    SessionMoves(a, b) && (b.Some? ==> b.value.generation <= NextGeneration(a))
  }

  lemma WriteMovesSessions(s: Store, w: Write, role: RoleId)
    requires Permitted(s, w)
    ensures SessionSteps(Lookup(s.sessions, role), Lookup(Apply(s, w).sessions, role))
  {
    hide CommitAllowed, ClaimAllowed, SaveAllowedNow, GateOpens, SupervisorAllowed, AuthorizationAllowed;
  }

  // Over any run a role's generation never decreases, and within a generation
  // the ref never changes and an unavailable Session is never revived.
  lemma {:induction false} SessionsOnlyMoveOn(a: Store, ws: seq<Write>, b: Store, role: RoleId)
    requires Run(a, ws, b)
    ensures SessionMoves(Lookup(a.sessions, role), Lookup(b.sessions, role))
    decreases |ws|
  {
    hide Permitted, Apply;
    if ws != [] {
      WriteMovesSessions(a, ws[0], role);
      SessionsOnlyMoveOn(Apply(a, ws[0]), ws[1..], b, role);
    }
  }

  // A role that resumes Sessions gets a fresh one by an explicit Resume only:
  // each generation after the first that was launched has a Turn claimed on a
  // Resume, and a Turn launched while the Session before its own is still the
  // unavailable one was claimed on a Resume itself.
  lemma ResumeStartsGenerations(team: Team, now: int, s: Store, t: nat, role: RoleId)
    requires team.Valid() && Reachable(team, now, s) && t < |s.turns|
    requires s.turns[t].rt.executor.ByWorker? && s.turns[t].rt.nonce.Some? && s.turns[t].rt.role == Some(role)
    ensures role in team.roles && s.turns[t].rt.generation.Some?
    ensures team.roles[role].policy.Resumable? && s.turns[t].rt.generation.value > 1 ==>
              exists u | 0 <= u < |s.turns| ::
                s.turns[u].rt.role == Some(role) && s.turns[u].rt.generation == s.turns[t].rt.generation
                && s.turns[u].rt.input.kind.ResumeKind?
    ensures team.roles[role].policy.Resumable? && Newest(s, t) && role in s.sessions && s.sessions[role].ref.None?
            && s.sessions[role].generation < s.turns[t].rt.generation.value ==>
              s.turns[t].rt.input.kind.ResumeKind?
  {
    hide Inv, Newest;
    ReachableInv(team, now, s);
    ReachableTeam(team, now, s);
    D.WorkerRole(s, t);
    LaunchIsOk(s, t);
  }

  lemma LaunchIsOk(s: Store, t: nat)
    requires Inv(s) && t < |s.turns|
    ensures LaunchOk(s, t)
  {
    hide JournalInv, ProcInv, PolicyInv, CountInv, LaunchOk, StepHeld, ClaimHeld, SettledOnce, RouteHeld, SessionOk;
  }

  // A claim can always commit: the latest Turn of a role is refused only for a
  // ref that differs from the one its generation already has.
  lemma LatestTurnCommits(team: Team, now: int, s: Store, t: nat, role: RoleId, ref: Ref)
    requires team.Valid() && Reachable(team, now, s) && t < |s.turns|
    requires s.turns[t].rt.executor.ByWorker? && s.turns[t].rt.role == Some(role) && Newest(s, t)
    requires s.turns[t].rt.generation.Some? && !F.MadeUnavailable(s, t)
    ensures
      var current := Lookup(s.sessions, role);
      var generation := s.turns[t].rt.generation.value;
      CommitSession(current, t, generation, ref).Refused? <==>
        current.Some? && current.value.generation == generation && current.value.ref != Some(ref)
  {
    hide Inv, CommitSession;
    ReachableInv(team, now, s);
    F.NewestInStep(s, t);
    F.UnavailableBy(s.team.roles[role].policy, Lookup(s.sessions, role), t, s.turns[t].rt.generation.value);
    F.CommitRefusal(s.team.roles[role].policy, Lookup(s.sessions, role), t, s.turns[t].rt.generation.value, ref);
  }

  // ---- what the validator takes

  // For the Turn no event has ended, a technical Block is taken if and only if
  // its stamp and limit reason fit the deadline and the last business number.
  lemma BlockTakenInTime(team: Team, now: int, s: Store, t: nat, reason: BlockReason, limit: Option<LimitReason>, created: int)
    requires team.Valid() && Reachable(team, now, s) && t < |s.turns| && s.turns[t].rt.business.Some?
    requires TerminalFor(s.events, t).None? && |s.events| > 0 && s.events[|s.events| - 1].created <= created
    ensures
      var e := Guards.NextEvent(s.events, Block(reason, limit), s.turns[t].rt.role, None, Some(t), created);
      Guards.Verdict(s, e).Ok? <==> Guards.BlockTimely(s.team, s.turns[t].rt, reason, limit, created, DeadlineOf(s.team, s.events[0]))
  {
    hide Inv, Guards.Verdict, Guards.BlockTimely, TerminalFor;
    ReachableInv(team, now, s);
    Guards.UnendedIsOpen(s, t);
    Guards.BlockAccepted(s, t, reason, limit, created);
  }

  // A decision the guard froze is taken, for a Handoff, a Completion and every
  // Block that is not a limit Block.
  lemma DecisionTaken(team: Team, now: int, s: Store, t: nat, body: Body, to: Option<RoleId>, at: int)
    requires team.Valid() && Reachable(team, now, s) && t < |s.turns| && s.turns[t].rt.business.Some?
    requires D.Decided(s, t, body.Handoff?, at)
    requires body == Handoff(Selected) || body.Complete? || (body.Block? && !body.reason.Limit? && body.limit.None?)
    requires if body.Handoff? then to.Some? && to.value in s.team.roles else to.None?
    ensures Guards.Verdict(s, Guards.NextEvent(s.events, body, s.turns[t].rt.role, to, Some(t), at)).Ok?
  {
    hide Inv, Guards.Verdict, D.Decided;
    ReachableInv(team, now, s);
    D.DecisionAccepted(s, t, body, to, at);
  }

  // A Resume is taken whenever its Block, its claim and the limits allow it.
  lemma ResumeTaken(team: Team, now: int, s: Store, t: nat, claim: nat, to: RoleId, at: int)
    requires team.Valid() && Reachable(team, now, s)
    requires M.Resumable(s, t, claim) && to in s.team.roles && D.Timely(s, true, at)
    ensures Guards.Verdict(s, Guards.NextEvent(s.events, Resume, None, Some(to), Some(t), at)).Ok?
  {
    hide Inv, Guards.Verdict;
    ReachableInv(team, now, s);
    M.ResumeAccepted(s, t, claim, to, at);
  }

  // A Cancel is taken unless the Turn it names was ended by an event that its
  // Runtime does not record yet.
  lemma CancelTaken(team: Team, now: int, s: Store, created: int)
    requires team.Valid() && Reachable(team, now, s) && |s.events| > 0 && s.events[|s.events| - 1].created <= created
    requires ProjectedStatus(s).RunningRun? || ProjectedStatus(s).BlockedRun?
    ensures Guards.Verdict(s, Guards.NextEvent(s.events, Cancel, ProjectedOwner(s), None, M.CancelTurn(s), created)).Ok? <==>
              !(ProjectedStatus(s).RunningRun? && M.Unacknowledged(s))
  {
    hide Inv, Guards.Verdict, M.CancelTurn, M.Unacknowledged;
    ReachableInv(team, now, s);
    M.CancelAccepted(s, created);
  }

  // The guard counts Turns, the validator compares the Turn's own number.
  lemma CountsAgree(team: Team, now: int, s: Store, t: nat)
    requires team.Valid() && Reachable(team, now, s) && t < |s.turns| && s.turns[t].rt.business.Some?
    requires TerminalFor(s.events, t).None?
    ensures BusinessCount(s.turns, |s.turns|) >= team.maxTurns <==> s.turns[t].rt.business == Some(team.maxTurns)
    ensures CountBefore(s.events, s.turns, |s.events|) == BusinessCount(s.turns, |s.turns|)
  {
    hide Inv, TerminalFor;
    ReachableInv(team, now, s);
    ReachableTeam(team, now, s);
    Guards.UnendedIsOpen(s, t);
    Guards.OpenNumber(s, t);
    Limits.Bounded(s);
    LinksHold(s);
    C.CountsCoincide(s.events, s.turns);
  }

  lemma LinksHold(s: Store)
    requires Inv(s)
    ensures AllLinked(s.events, s.turns)
  {
    hide ProcInv, PolicyInv, SessionInv, CountInv, AllLinked, TurnsValid, Accepted;
  }

  // Whatever ends the final allowed Turn never transfers the token again.
  lemma FinalTurnKeepsToken(team: Team, now: int, s: Store, t: nat, e: Event)
    requires team.Valid() && Reachable(team, now, s) && t < |s.turns|
    requires s.turns[t].rt.business == Some(team.maxTurns) && TerminalFor(s.events, t) == Some(e)
    ensures !StatusAfter(e).RunningRun?
  {
    hide Inv, StatusAfter;
    ReachableInv(team, now, s);
    ReachableTeam(team, now, s);
    TerminalIsSuccessor(s, t);
    Limits.FinalTurnKeepsToken(s, t);
  }

  // ---- endings whose outcome is not looked up

  // "failed", recorded while the Supervisor's exit is in doubt.
  lemma DoubtfulEnding(team: Team, now: int, s: Store, t: nat, e: Event)
    requires team.Valid() && Reachable(team, now, s) && t < |s.turns| && s.turns[t].rt.executor.ByWorker?
    requires s.turns[t].sup.Some? && s.turns[t].sup.value.state.SupFinished? && F.ChainConsistent(s.turns[t])
    requires TerminalFor(s.events, t) == Some(e)
    requires ValidRuntime(s.team, F.DoubtfulEnd(s.turns[t], e)) && SaveAllowed(s.turns[t].rt, F.DoubtfulEnd(s.turns[t], e))
    ensures Scan.ScanVerdict(Apply(s, Save(t, F.DoubtfulEnd(s.turns[t], e)))).Ok? <==> OutcomeOf(e.body).Failed?
  {
    hide Inv, Scan.ScanVerdict, ValidRuntime, SaveAllowed, SaveAllowedNow, Apply, F.ChainConsistent;
    ReachableInv(team, now, s);
    F.DoubtfulEndScans(s, t, e);
  }

  // The outcome an Origin branch records for the event that ended its Turn.
  lemma OriginEnding(team: Team, now: int, s: Store, t: nat, e: Event, phase: Phase, outcome: Outcome)
    requires team.Valid() && Reachable(team, now, s) && t < |s.turns| && s.turns[t].rt.executor.ByOrigin?
    requires TerminalFor(s.events, t) == Some(e) && Ended(phase)
    requires ValidRuntime(s.team, O.OriginEnd(s.turns[t].rt, e, phase, outcome))
    requires SaveAllowed(s.turns[t].rt, O.OriginEnd(s.turns[t].rt, e, phase, outcome))
    ensures Scan.ScanVerdict(Apply(s, Save(t, O.OriginEnd(s.turns[t].rt, e, phase, outcome)))).Ok? <==> outcome == OutcomeOf(e.body)
  {
    hide Inv, Scan.ScanVerdict, ValidRuntime, SaveAllowed, SaveAllowedNow, Apply;
    ReachableInv(team, now, s);
    O.OriginEndScans(s, t, e, phase, outcome);
  }

  // The outcome the action guard of the Origin records for that event.
  lemma GuardOutcomeRight(team: Team, now: int, s: Store, t: nat, e: Event)
    requires team.Valid() && Reachable(team, now, s) && t < |s.turns| && s.turns[t].rt.business.Some?
    requires TerminalFor(s.events, t) == Some(e)
    ensures O.GuardOutcome(e) == OutcomeOf(e.body) <==> (e.body.Block? && e.body.reason.Limit?) || OutcomeOf(e.body).Failed?
  {
    hide Inv;
    ReachableInv(team, now, s);
    O.GuardOutcomeRight(s, t, e);
  }

  // ---- finalizing again after a crash

  // A finalization stopped right behind its Session write is planned again from
  // what it left. With the same answers the plan is the same, except for a
  // failed candidate: that one is planned differently unless both runs block
  // the Turn as a failed start.
  lemma FinalizationRepeats(team: Team, now: int, s: Store, t: nat, a: F.Answers)
    requires team.Valid() && Reachable(team, now, s) && F.Reported(s, t) && Newest(s, t)
    requires TerminalFor(s.events, t).None? && !F.MadeUnavailable(s, t)
    ensures s.turns[t].rt.role.Some? && s.turns[t].rt.role.value in s.team.roles && s.turns[t].rt.generation.Some?
    ensures 1 <= s.turns[t].rt.input.n <= |s.events|
    ensures F.SessionStepOf(s, t, F.Candidate(s, t, a)).Writes? ==>
              var x := F.AfterSession(s, t, F.Candidate(s, t, a));
              && Reachable(team, now, x) && F.Reported(x, t) && Newest(x, t) && TerminalFor(x.events, t).None?
              && F.AfterSession(x, t, F.Candidate(x, t, a)) == x
              && (F.MadeUnavailable(x, t) <==> F.Candidate(s, t, a))
              && (F.PlanFor(x, t, a) == F.PlanFor(s, t, a) <==>
                    !F.Candidate(s, t, a)
                    || (!s.turns[t].sup.value.evidence.started && !a.truncated && F.ReturnRole(s, t).None?))
  {
    hide Inv, TerminalFor, F.ChainConsistent, F.SessionStepOf, F.AfterSession, F.ReturnRole, F.PlanFor, Newest, Apply, Permitted;
    ReachableInv(team, now, s);
    D.WorkerRole(s, t);
    Guards.InputPosition(s, t);
    var candidate := F.Candidate(s, t, a);
    if F.SessionStepOf(s, t, candidate).Writes? {
      F.StepAllowed(s, t, candidate);
      AfterIsApplied(s, t, candidate);
      ReachesOneMore(team, now, s, PutSession(t, F.SessionStepOf(s, t, candidate).session));
      SessionStepLeaves(s, t, candidate);
      F.StepMarks(s, t, candidate);
      F.StepIsFinal(s, t, a);
      F.PlansDiffer(s, F.AfterSession(s, t, candidate), t, a);
    }
  }

  lemma AfterIsApplied(s: Store, t: nat, candidate: bool)
    requires t < |s.turns| && s.turns[t].sup.Some?
    requires s.turns[t].rt.role.Some? && s.turns[t].rt.role.value in s.team.roles && s.turns[t].rt.generation.Some?
    requires F.SessionStepOf(s, t, candidate).Writes?
    ensures F.AfterSession(s, t, candidate) == Apply(s, PutSession(t, F.SessionStepOf(s, t, candidate).session))
  {
    hide F.SessionStepOf;
  }

  lemma SessionStepLeaves(s: Store, t: nat, candidate: bool)
    requires F.Reported(s, t) && Newest(s, t) && TerminalFor(s.events, t).None?
    requires s.turns[t].rt.role.Some? && s.turns[t].rt.role.value in s.team.roles && s.turns[t].rt.generation.Some?
    ensures
      var x := F.AfterSession(s, t, candidate);
      F.Reported(x, t) && Newest(x, t) && TerminalFor(x.events, t).None?
  {
    hide F.SessionStepOf, F.AfterSession, F.ChainConsistent;
  }

  // ---- a Turn that needs recovery

  // Once the Supervisor has reported the end, such a Turn can be finalized if
  // and only if no other ending was recorded for it before.
  lemma ReportSaves(team: Team, now: int, s: Store, t: nat)
    requires team.Valid() && Reachable(team, now, s) && F.Reported(s, t) && s.turns[t].rt.phase.RecoveryRequired?
    ensures s.turns[t].rt.outcome.Some? && s.turns[t].rt.terminal.Some?
    ensures
      var rt := s.turns[t].rt;
      var end := F.ReportedEnd(s.turns[t], rt.outcome.value, rt.terminal.value);
      ValidRuntime(s.team, end) && SaveAllowed(rt, end) <==>
        rt.ending.kind.None? || rt.ending.kind == s.turns[t].sup.value.kind
  {
    hide Inv;
    ReachableInv(team, now, s);
    F.ReportSaves(s, t);
  }

  // The process artifacts of a Turn are refused for two reasons only.
  lemma ChainRefusedOnlyFor(team: Team, now: int, s: Store, t: nat)
    requires team.Valid() && Reachable(team, now, s) && t < |s.turns| && s.turns[t].sup.Some?
    ensures F.ChainConsistent(s.turns[t]) <==> !F.OrphanedRunner(s.turns[t]) && !F.UnauthorizedEvidence(s.turns[t])
  {
    hide Inv;
    ReachableInv(team, now, s);
    F.ChainRefusal(s, t);
  }

  // No event and no save may follow that would close the recovery gate behind
  // a committed Resume, or take the evidence from under a system Handoff: every
  // committed event is still acceptable at its own position.
  lemma OldEventsStayAccepted(team: Team, now: int, s: Store, k: nat)
    requires team.Valid() && Reachable(team, now, s) && k < |s.events|
    ensures StepAccepted(s.team, s.events, s.turns, k)
    ensures s.events[k].body.Resume? ==> !RecoveryGateClosed(s.turns, s.events[k].id.n)
    ensures s.events[k].body.Handoff? && s.events[k].turn.Some? && s.events[k].turn.value < |s.turns| ==>
              EvidenceAllows(s.turns[s.events[k].turn.value].rt, s.events[k].body.why)
  {
    hide Inv, StepAccepted;
    ReachableInv(team, now, s);
    AcceptedAt(s, k);
    StepShows(s, k);
  }

  lemma AcceptedAt(s: Store, k: nat)
    requires Inv(s) && k < |s.events|
    ensures StepAccepted(s.team, s.events, s.turns, k)
  {
    hide ProcInv, PolicyInv, SessionInv, CountInv, TurnsValid, AllLinked, StepAccepted;
  }

  lemma StepShows(s: Store, k: nat)
    requires k < |s.events| && StepAccepted(s.team, s.events, s.turns, k)
    ensures s.events[k].body.Resume? ==> !RecoveryGateClosed(s.turns, s.events[k].id.n)
    ensures s.events[k].body.Handoff? && s.events[k].turn.Some? && s.events[k].turn.value < |s.turns| ==>
              EvidenceAllows(s.turns[s.events[k].turn.value].rt, s.events[k].body.why)
  {
    hide RecoveryGateClosed, EvidenceAllows, CountBefore;
  }
}
