/** One workspace, many Runs: who may work in it. */
module Ownership {
  import opened Model
  import opened Options
  import opened Journal
  import opened Turns
  import opened Replay
  import opened Invariant
  import opened Machine
  import opened Guards
  import opened TurnClaims
  import Safety
  import Management
  import opened Stability
  import C = CommitProof

  type RunId = string

  datatype World = World(owner: Option<RunId>, runs: map<RunId, Store>)

  predicate Started(s: Store) { ProjectedStatus(s).RunningRun? || ProjectedStatus(s).BlockedRun? }

  // No Turn of the Run can do anything any more.
  predicate Quiet(s: Store) {
    forall t | 0 <= t < |s.turns| :: s.turns[t].rt.phase.Finalized?
  }

  ghost predicate WorldInv(w: World) {
    && (forall r | r in w.runs :: Inv(w.runs[r]))
    && (forall r | r in w.runs :: Started(w.runs[r]) ==> w.owner == Some(r))
    && (forall r | r in w.runs :: w.owner != Some(r) ==> Quiet(w.runs[r]))
  }

  // A live Harness group of some Run: which Run, which Turn, which group.
  predicate LiveIn(w: World, r: RunId, p: (nat, Pid)) {
    r in w.runs && p in w.runs[r].passed && p.1 !in w.runs[r].dead
  }

  // Whatever Runs share the workspace, at most one Harness group is at work in
  // it, and it belongs to the owner.
  lemma LiveGroupIsOwners(w: World, r: RunId, p: (nat, Pid), q: RunId, o: (nat, Pid))
    requires WorldInv(w) && LiveIn(w, r, p) && LiveIn(w, q, o)
    ensures w.owner == Some(r) && r == q && p == o
  {
    hide Inv;
    LiveIsOwner(w, r, p);
    LiveIsOwner(w, q, o);
    Safety.InvExclusive(w.runs[r]);
  }

  lemma LiveIsOwner(w: World, r: RunId, p: (nat, Pid))
    requires WorldInv(w) && LiveIn(w, r, p)
    ensures w.owner == Some(r)
  {
    if w.owner != Some(r) { QuietIsDead(w.runs[r], p); }
  }

  lemma QuietIsDead(s: Store, p: (nat, Pid))
    requires Inv(s) && Quiet(s) && p in s.passed
    ensures p.1 in s.dead
  {
    hide JournalInv, PolicyInv, SessionInv, CountInv;
    assert ProcOk(s.turns[p.0], p.0, s.dead, s.passed);
  }

  // ---- a Run that is not the owner stays quiet

  lemma UnstartedHasNoTurns(s: Store)
    requires Inv(s) && ProjectedStatus(s).UnstartedRun?
    ensures s.events == [] && s.turns == []
  {
    hide ProcInv, PolicyInv, SessionInv, CountInv, Accepted, TurnsValid;
    C.NoTurnBeforeKickoff(s.events, s.turns);
  }

  predicate IsKickoff(w: Write) { w.Commit? && w.e.body.Kickoff? }

  // A finished Run accepts no further event and no further claim.
  lemma FinishedRefuses(s: Store, w: Write)
    requires Inv(s) && !Started(s) && Permitted(s, w) && (w.Commit? || w.Claim?)
    ensures IsKickoff(w) && ProjectedStatus(s).UnstartedRun?
  {
    hide ProcInv, PolicyInv, SessionInv, CountInv, TurnsValid, AllLinked, EventPolicy, ValidRuntime;
    if w.Commit? {
      PrefixCursor(s.events, w.e, |s.events|);
    }
  }

  lemma QuietStays(s: Store, w: Write)
    requires Inv(s) && Permitted(s, w) && Quiet(s) && !Started(s) && !IsKickoff(w)
    ensures Quiet(Apply(s, w)) && !Started(Apply(s, w))
  {
    hide Inv, CommitAllowed, ClaimAllowed, SessionAllowed, GateOpens, SupervisorAllowed, AuthorizationAllowed, ValidRuntime, Linked, EndedBy, Continuous;
    if w.Commit? || w.Claim? { FinishedRefuses(s, w); }
  }

  // What the operations of a Run check before they change it: a Kickoff needs
  // ownership, and so does every event of a started Run.
  lemma RunStepKeepsWorld(w: World, r: RunId, step: Write)
    requires WorldInv(w) && r in w.runs && Permitted(w.runs[r], step)
    requires IsKickoff(step) ==> w.owner == Some(r)
    ensures WorldInv(w.(runs := w.runs[r := Apply(w.runs[r], step)]))
  {
    hide Inv, Permitted, Apply, Quiet, Started;
    var s := w.runs[r];
    Safety.WriteKeepsInv(s, step);
    if w.owner != Some(r) {
      QuietStays(s, step);
    }
  }

  // ---- the workspace as a machine

  datatype Move =
    | Create(r: RunId, team: Team, now: int)
    | Acquire(r: RunId)
    | Release(r: RunId)
    | Inside(r: RunId, step: Write)

  // What the program has checked when it performs a move.
  predicate Allowed(w: World, m: Move) {
    match m
    case Create(r, team, _) => r !in w.runs && team.Valid()
    case Acquire(r) => r in w.runs && ProjectedStatus(w.runs[r]).UnstartedRun? && (w.owner.None? || w.owner == Some(r))
    case Release(r) =>
      && r in w.runs && w.owner == Some(r) && !Started(w.runs[r])
      && (ProjectedStatus(w.runs[r]).UnstartedRun? || Quiet(w.runs[r]))
    case Inside(r, step) => r in w.runs && Permitted(w.runs[r], step) && (IsKickoff(step) ==> w.owner == Some(r))
  }

  function After(w: World, m: Move): World {
    match m
    case Create(r, team, now) => w.(runs := w.runs[r := Safety.Initial(team, now)])
    case Acquire(r) => w.(owner := Some(r))
    case Release(r) => w.(owner := None)
    case Inside(r, step) => if r in w.runs then w.(runs := w.runs[r := Apply(w.runs[r], step)]) else w
  }

  lemma MoveKeepsWorld(w: World, m: Move)
    requires WorldInv(w) && Allowed(w, m)
    ensures WorldInv(After(w, m))
  {
    hide Inv, Permitted, Apply;
    match m {
      case Create(r, team, now) => Safety.InitialInv(team, now);
      case Acquire(r) => AcquireKeepsWorld(w, r);
      case Release(r) =>
        if ProjectedStatus(w.runs[r]).UnstartedRun? { UnstartedHasNoTurns(w.runs[r]); }
        ReleaseKeepsWorld(w, r);
      case Inside(r, step) => RunStepKeepsWorld(w, r, step);
    }
  }

  const EMPTY := World(None, map[])

  ghost predicate Moves(a: World, ms: seq<Move>, b: World)
    decreases |ms|
  {
    if ms == [] then b == a else Allowed(a, ms[0]) && Moves(After(a, ms[0]), ms[1..], b)
  }

  ghost predicate WorldReachable(w: World) { exists ms :: Moves(EMPTY, ms, w) }

  lemma {:induction false} MovesKeepWorld(a: World, ms: seq<Move>, b: World)
    requires WorldInv(a) && Moves(a, ms, b)
    ensures WorldInv(b)
    decreases |ms|
  {
    hide WorldInv, Allowed, After;
    if ms != [] {
      MoveKeepsWorld(a, ms[0]);
      MovesKeepWorld(After(a, ms[0]), ms[1..], b);
    }
  }

  // Over all histories of a workspace: one live Harness group at most.
  lemma OneHarnessPerWorkspace(w: World, r: RunId, p: (nat, Pid), q: RunId, o: (nat, Pid))
    requires WorldReachable(w) && LiveIn(w, r, p) && LiveIn(w, q, o)
    ensures w.owner == Some(r) && r == q && p == o
  {
    hide WorldInv, Allowed, After, Inv;
    var ms :| Moves(EMPTY, ms, w);
    assert WorldInv(EMPTY) by { EmptyWorld(); }
    MovesKeepWorld(EMPTY, ms, w);
    LiveGroupIsOwners(w, r, p, q, o);
  }

  // A running or blocked Run owns the workspace, and while any Turn of the
  // owner is unfinalized no other Run can be kicked off.
  lemma OwnerWorksAlone(w: World, r: RunId, q: RunId, step: Write)
    requires WorldReachable(w) && r in w.runs && q in w.runs && r != q
    requires Started(w.runs[r]) || !Quiet(w.runs[r])
    ensures w.owner == Some(r)
    ensures IsKickoff(step) ==> !Allowed(w, Inside(q, step))
    ensures !Allowed(w, Acquire(q))
  {
    hide WorldInv, After, Inv, Permitted, Started, Quiet;
    var ms :| Moves(EMPTY, ms, w);
    assert WorldInv(EMPTY) by { EmptyWorld(); }
    MovesKeepWorld(EMPTY, ms, w);
    BusyIsOwner(w, r);
  }

  lemma BusyIsOwner(w: World, r: RunId)
    requires WorldInv(w) && r in w.runs && (Started(w.runs[r]) || !Quiet(w.runs[r]))
    ensures w.owner == Some(r)
  {
    hide Inv, Started, Quiet;
  }

  lemma EmptyWorld()
    ensures WorldInv(EMPTY)
  {
  }

  ghost predicate Moved(a: World, b: World) {
    exists m :: Allowed(a, m) && b == After(a, m)
  }

  lemma {:induction false} MovesOneMore(a: World, ms: seq<Move>, b: World, m: Move)
    requires Moves(a, ms, b) && Allowed(b, m)
    ensures Moves(a, ms + [m], After(b, m))
    decreases |ms|
  {
    hide Allowed, After;
    if ms == [] {
      assert (ms + [m])[1..] == [];
    } else {
      MovesOneMore(After(a, ms[0]), ms[1..], b, m);
      assert (ms + [m])[1..] == ms[1..] + [m];
    }
  }

  // A history of the workspace, one durable change after the other.
  ghost predicate WorldHistory(history: seq<World>) {
    history != [] && history[0] == EMPTY && forall i | 0 < i < |history| :: Moved(history[i - 1], history[i])
  }

  // Whatever a crash leaves behind is a reachable world.
  lemma {:induction false} HistoryIsReachable(history: seq<World>, i: nat)
    requires WorldHistory(history) && i < |history|
    ensures WorldReachable(history[i])
  {
    hide Allowed, After;
    if i == 0 {
      assert Moves(EMPTY, [], history[0]);
    } else {
      HistoryIsReachable(history, i - 1);
      var ms :| Moves(EMPTY, ms, history[i - 1]);
      assert Moved(history[i - 1], history[i]);
      var m :| Allowed(history[i - 1], m) && history[i] == After(history[i - 1], m);
      MovesOneMore(EMPTY, ms, history[i - 1], m);
    }
  }

  class Workspace {
    var owner: Option<RunId>
    var runs: map<RunId, Store>
    ghost var history: seq<World>

    function State(): World
      reads this
    {
      World(owner, runs)
    }

    // The world after every durable change, so also after a crash there.
    ghost predicate Valid()
      reads this
    {
      WorldInv(State()) && WorldHistory(history) && history[|history| - 1] == State()
    }

    constructor ()
      ensures Valid() && State() == EMPTY
    {
      owner, runs, history := None, map[], [EMPTY];
    }

    // One durable change of the workspace.
    method Make(m: Move)
      requires Valid() && Allowed(State(), m)
      modifies this
      ensures Valid() && State() == After(old(State()), m) && old(history) <= history
    {
      hide WorldInv, Allowed;
      ghost var before := State();
      MoveKeepsWorld(before, m);
      match m {
        case Create(r, team, now) => runs := runs[r := Safety.Initial(team, now)];
        case Acquire(r) => owner := Some(r);
        case Release(r) => owner := None;
        case Inside(r, step) => if r in runs { runs := runs[r := Apply(runs[r], step)]; }
      }
      history := history + [State()];
      assert Moved(before, State());
    }

    // start_run: acquire, preflight, kickoff. A kickoff that is reported as
    // failed releases ownership only if a fresh scan does not find it.
    method StartRun(r: RunId, now: int, preflight: bool, visible: bool, reported: bool) returns (started: bool)
      requires Valid() && r in runs && runs[r].clock <= now
      modifies this
      ensures Valid()
      ensures r in runs && (started ==> owner == Some(r) && Started(runs[r]))
      ensures !started && owner != old(owner) ==> owner == Some(r) || (owner.None? && ProjectedStatus(runs[r]).UnstartedRun?)
      ensures old(owner).Some? && old(owner) != Some(r) ==> !started && State() == old(State())
      ensures ProjectedStatus(old(runs)[r]).UnstartedRun? && (old(owner).None? || old(owner) == Some(r)) ==>
                && (started <==> preflight && visible && reported)
                && (if preflight && visible then owner == Some(r) && Started(runs[r]) else owner.None? && runs == old(runs))
      ensures !ProjectedStatus(old(runs)[r]).UnstartedRun? ==> State() == old(State())
    {
      hide Inv, Permitted, Verdict;
      if !ProjectedStatus(runs[r]).UnstartedRun? {
        started := owner == Some(r) && Started(runs[r]);
        return;
      }
      if owner.Some? && owner != Some(r) { return false; }
      Make(Acquire(r));
      if preflight && visible {
        UnstartedHasNoTurns(runs[r]);
        KickoffPermitted(runs[r]);
        Make(Inside(r, Commit(KickoffOf(runs[r]))));
        KickoffStarts(runs[r]);
        if reported { return true; }
      }
      if ProjectedStatus(runs[r]).UnstartedRun? {
        Make(Release(r));
      }
      return false;
    }

    // release_terminal_owner_locked; `gone` are the processes found dead.
    method ReleaseTerminalOwner(r: RunId, gone: set<Pid>) returns (released: bool)
      requires Valid() && r in runs
      modifies this
      ensures Valid()
      ensures owner == (if released then None else old(owner))
      ensures r in runs && (released && old(owner) == Some(r) ==> Quiet(runs[r]) && !Started(runs[r]))
      ensures released <==>
                && (ProjectedStatus(old(runs)[r]).CompletedRun? || ProjectedStatus(old(runs)[r]).CancelledRun?)
                && (forall t | 0 <= t < |old(runs)[r].turns| :: TurnOver(old(runs)[r].turns[t].rt, gone))
                && (old(owner).None? || old(owner) == Some(r))
    {
      hide Inv, Permitted;
      if !ProjectedStatus(runs[r]).CompletedRun? && !ProjectedStatus(runs[r]).CancelledRun? { return false; }
      var t := 0;
      while t < |runs[r].turns|
        invariant Valid() && r in runs && owner == old(owner) && !Started(runs[r])
        invariant 0 <= t <= |runs[r].turns| && runs[r].turns == old(runs)[r].turns
        invariant forall u | 0 <= u < t :: TurnOver(runs[r].turns[u].rt, gone)
      {
        var rt := runs[r].turns[t].rt;
        if !TurnOver(rt, gone) { return false; }
        if rt.executor.ByWorker? {
          if rt.supervisor.Some? {
            DeathIsPermitted(runs[r], rt.supervisor.value);
            Make(Inside(r, Die(rt.supervisor.value)));
          }
          if rt.runner.Some? {
            DeathIsPermitted(runs[r], rt.runner.value);
            Make(Inside(r, Die(rt.runner.value)));
          }
        }
        t := t + 1;
      }
      if owner.None? { return true; }
      if owner != Some(r) { return false; }
      Make(Release(r));
      return true;
    }
  }

  predicate TurnOver(rt: Runtime, gone: set<Pid>) {
    && rt.phase.Finalized?
    && (rt.executor.ByWorker? ==>
          && rt.ending.quiescent == Some(true)
          && (rt.supervisor.Some? ==> rt.supervisor.value in gone) && (rt.runner.Some? ==> rt.runner.value in gone))
  }

  function KickoffOf(s: Store): Event {
    NextEvent(s.events, Kickoff, None, Some(s.team.initialRole), None, Stamp(s.clock))
  }

  lemma KickoffPermitted(s: Store)
    requires Inv(s) && s.events == []
    ensures Permitted(s, Commit(KickoffOf(s))) && IsKickoff(Commit(KickoffOf(s)))
  {
    Management.KickoffAccepted(s, Stamp(s.clock));
    hide Inv, Verdict;
    assert EventPolicy(s.team, KickoffOf(s), s.turns, s.dead);
    VerdictAllows(s, Kickoff, None, Some(s.team.initialRole), None, Stamp(s.clock));
  }

  lemma KickoffStarts(s: Store)
    requires |s.events| > 0 && s.events[|s.events| - 1].body.Kickoff?
    ensures Started(s)
  {
  }

  lemma DeathIsPermitted(s: Store, pid: Pid)
    ensures Permitted(s, Die(pid)) && Apply(s, Die(pid)) == s.(dead := s.dead + {pid})
  {
  }

  lemma AcquireKeepsWorld(w: World, r: RunId)
    requires WorldInv(w) && r in w.runs && (w.owner.None? || w.owner == Some(r))
    ensures WorldInv(w.(owner := Some(r)))
  {
    hide Inv, Quiet, Started;
  }

  lemma ReleaseKeepsWorld(w: World, r: RunId)
    requires WorldInv(w) && w.owner == Some(r) && r in w.runs && !Started(w.runs[r]) && Quiet(w.runs[r])
    ensures WorldInv(w.(owner := None))
  {
    hide Inv, Started;
  }
}
