/** Concrete runs in which a promise of the program fails. */
module Findings {
  import opened Model
  import opened Options
  import opened Journal
  import opened Turns
  import opened Replay
  import opened Invariant
  import opened Sessions
  import opened Machine
  import opened Endings
  import opened Guards
  import opened FinalSaves
  import opened Safety
  import opened TurnClaims
  import opened Delivery
  import opened Directory
  import O = Origin
  import F = Finalize
  import M = Management
  import W = Ownership
  import Launch
  import Scan
  import T = Theorems
  import R = Routes

  const HOME: RoleId := "home"
  const WORKER: RoleId := "worker"
  const HOME_TEAM := Team(map[HOME := Role(Origin, Fresh)], HOME, 2, 1, None, {})
  const WORKER_TEAM := Team(map[WORKER := Role(External, Fresh)], WORKER, 2, 1, None, {})

  lemma Advance(team: Team, s: Store, w: Write)
    requires team.Valid() && Reachable(team, 0, s) && Permitted(s, w)
    ensures Reachable(team, 0, Apply(s, w)) && Inv(Apply(s, w)) && Inv(s)
  {
    hide Inv, Permitted, Apply;
    ReachesOneMore(team, 0, s, w);
    ReachableInv(team, 0, Apply(s, w));
    ReachableInv(team, 0, s);
  }

  // A Run after its kickoff, at time 0.
  function KickedOff(team: Team): Store {
    Initial(team, 0).(events := [W.KickoffOf(Initial(team, 0))])
  }

  lemma KickoffReached(team: Team)
    requires team.Valid()
    ensures Reachable(team, 0, KickedOff(team)) && Inv(KickedOff(team))
  {
    hide Inv;
    ReachesInitial(team, 0);
    InitialInv(team, 0);
    W.KickoffPermitted(Initial(team, 0));
    hide Permitted;
    Advance(team, Initial(team, 0), Commit(W.KickoffOf(Initial(team, 0))));
    assert Apply(Initial(team, 0), Commit(W.KickoffOf(Initial(team, 0)))) == KickedOff(team);
  }

  // The first Turn, claimed on the kickoff.
  function FirstClaim(team: Team, executor: Executor, before: Option<Tree>): Runtime
    requires team.Valid()
  {
    BusinessRuntime(KickedOff(team), team.initialRole, executor, before, 1)
  }

  lemma ClaimReached(team: Team, s: Store, executor: Executor, before: Option<Tree>)
    requires team.Valid() && team.roles[team.initialRole].binding == (if executor.ByWorker? then External else Origin)
    requires s == KickedOff(team).(clock := s.clock) && Reachable(team, 0, s) && s.clock >= 0
    ensures
      var s' := s.(turns := [Turn(FirstClaim(team, executor, before), None, None, None, None, None)]);
      Reachable(team, 0, s') && Inv(s')
  {
    hide Inv;
    ReachableInv(team, 0, s);
    assert BusinessRuntime(s, team.initialRole, executor, before, 1) == FirstClaim(team, executor, before);
    BusinessClaimAllowed(s, team.initialRole, executor, before, 1);
    hide ClaimAllowed;
    Advance(team, s, Claim(FirstClaim(team, executor, before)));
    assert Apply(s, Claim(FirstClaim(team, executor, before)))
        == s.(turns := [Turn(FirstClaim(team, executor, before), None, None, None, None, None)]);
  }

  // ---- cancelling the first Turn

  function CancelOf(s: Store): Event
    requires |s.events| > 0
  {
    NextEvent(s.events, Cancel, ProjectedOwner(s), None, Some(0), Stamp(s.clock))
  }

  lemma CancelReached(team: Team, s: Store)
    requires team.Valid() && Reachable(team, 0, s) && Inv(s) && |s.events| == 1 && |s.turns| == 1
    requires ProjectedStatus(s).RunningRun?
    ensures
      var s' := s.(events := s.events + [CancelOf(s)]);
      && Reachable(team, 0, s') && Inv(s') && ProjectedStatus(s').CancelledRun?
      && TerminalFor(s'.events, 0) == Some(CancelOf(s))
  {
    hide Inv, TerminalFor, Verdict, EventPolicy, CommitAllowed;
    FirstTurnOpen(s);
    OneActiveOneClaimant(s, s.events[0].id);
    TailPast(s);
    M.CancelAccepted(s, Stamp(s.clock));
    assert M.CancelTurn(s) == Some(0);
    M.CancelPolicy(s, Some(0), ProjectedOwner(s), Stamp(s.clock));
    VerdictAllows(s, Cancel, ProjectedOwner(s), None, Some(0), Stamp(s.clock));
    Advance(team, s, Commit(CancelOf(s)));
    var s' := Apply(s, Commit(CancelOf(s)));
    M.NamedTerminal(s', 0);
  }

  // ---- a Turn claimed too late and then cancelled stays open for good

  lemma LateCancelStrandsTurn()
    ensures exists s: Store :: Reachable(WORKER_TEAM, 0, s) && |s.turns| == 1 && ProjectedStatus(s).CancelledRun?
              && DeadlinePending(s.turns[0].rt) && TerminalFor(s.events, 0).Some? && !DeadlineBlock(TerminalFor(s.events, 0).value)
  {
    hide Inv, TerminalFor;
    var team := WORKER_TEAM;
    KickoffReached(team);
    var s1 := KickedOff(team).(clock := 1_000_000);
    Advance(team, KickedOff(team), Tick(1_000_000));
    ClaimReached(team, s1, ByWorker, None);
    var s2 := s1.(turns := [Turn(FirstClaim(team, ByWorker, None), None, None, None, None, None)]);
    CancelReached(team, s2);
    var s3 := s2.(events := s2.events + [CancelOf(s2)]);
    assert Reachable(team, 0, s3);
  }

  lemma FirstTurnOpen(s: Store)
    requires Inv(s) && |s.events| == 1 && |s.turns| == 1
    ensures TerminalFor(s.events, 0).None? && Open(s, 0)
  {
    hide Inv;
    InputPosition(s, 0);
    KickoffHasNoTurn(s);
    TerminalFromIs(s.events, 0, 0);
    TerminalIsSuccessor(s, 0);
    UnendedIsOpen(s, 0);
  }

  // ---- "failed" recorded for a Cancel: a Supervisor that ended without a
  // Runner after the Run was cancelled, and whose own exit cannot be checked

  function Nonced(): Turn {
    Turn(FirstClaim(WORKER_TEAM, ByWorker, Some(7)).(nonce := Some(5)), None, None, None, None, None)
  }

  const NO_RUNNER := Snapshot(SupFinished, 1, None, NoEvidence, Some(0), Some(UnknownExit), true)

  lemma NonceReached()
    ensures var s := KickedOff(WORKER_TEAM).(turns := [Nonced()]);
      Reachable(WORKER_TEAM, 0, s) && Inv(s)
  {
    hide Inv, TerminalFor;
    var team := WORKER_TEAM;
    KickoffReached(team);
    ClaimReached(team, KickedOff(team), ByWorker, Some(7));
    var s := KickedOff(team).(turns := [Turn(FirstClaim(team, ByWorker, Some(7)), None, None, None, None, None)]);
    FirstTurnOpen(s);
    Launch.NonceShape(s, 0, 5);
    Launch.LaunchSaves(s, 0, Nonced().rt);
    hide SaveAllowedNow, ValidRuntime, SaveAllowed;
    Advance(team, s, Save(0, Nonced().rt));
    assert Apply(s, Save(0, Nonced().rt)) == KickedOff(team).(turns := [Nonced()]);
  }

  lemma SupervisorReached()
    ensures var s := KickedOff(WORKER_TEAM).(turns := [Nonced().(sup := Some(FirstSnapshot(1)))]);
      Reachable(WORKER_TEAM, 0, s) && Inv(s)
  {
    hide Inv;
    NonceReached();
    var s := KickedOff(WORKER_TEAM).(turns := [Nonced()]);
    Advance(WORKER_TEAM, s, PutSupervisor(0, FirstSnapshot(1)));
    assert Apply(s, PutSupervisor(0, FirstSnapshot(1)))
        == KickedOff(WORKER_TEAM).(turns := [Nonced().(sup := Some(FirstSnapshot(1)))]);
  }

  lemma DoubtfulCancelBreaksRun()
    ensures exists s: Store, e: Event :: Reachable(WORKER_TEAM, 0, s) && |s.turns| == 1 && s.turns[0].sup.Some?
              && TerminalFor(s.events, 0) == Some(e) && e.body.Cancel?
              && ValidRuntime(s.team, F.DoubtfulEnd(s.turns[0], e)) && SaveAllowed(s.turns[0].rt, F.DoubtfulEnd(s.turns[0], e))
              && Scan.ScanVerdict(Apply(s, Save(0, F.DoubtfulEnd(s.turns[0], e)))).Err?
  {
    hide Inv, TerminalFor, Scan.ScanVerdict, ValidRuntime, SaveAllowed;
    DoubtReached();
    var s := Doubtful();
    var e := s.events[1];
    DoubtSaves(s, e);
    F.OtherEndRefused(s, 0, e);
  }

  // Kicked off, launched, cancelled, and reported as ended without a Runner.
  function Doubtful(): Store {
    var s := KickedOff(WORKER_TEAM).(turns := [Nonced().(sup := Some(FirstSnapshot(1)))]);
    s.(events := s.events + [CancelOf(s)], turns := [Nonced().(sup := Some(NO_RUNNER))])
  }

  lemma DoubtReached()
    ensures Reachable(WORKER_TEAM, 0, Doubtful()) && Inv(Doubtful()) && |Doubtful().events| == 2
    ensures TerminalFor(Doubtful().events, 0) == Some(Doubtful().events[1]) && Doubtful().events[1].body.Cancel?
  {
    hide Inv, TerminalFor;
    SupervisorReached();
    var s1 := KickedOff(WORKER_TEAM).(turns := [Nonced().(sup := Some(FirstSnapshot(1)))]);
    CancelReached(WORKER_TEAM, s1);
    var s2 := s1.(events := s1.events + [CancelOf(s1)]);
    Advance(WORKER_TEAM, s2, PutSupervisor(0, NO_RUNNER));
    assert Apply(s2, PutSupervisor(0, NO_RUNNER)) == Doubtful();
  }

  lemma DoubtSaves(s: Store, e: Event)
    requires s == Doubtful() && e.body.Cancel? && e.id.kind.CancelKind?
    ensures ValidRuntime(s.team, F.DoubtfulEnd(s.turns[0], e)) && SaveAllowed(s.turns[0].rt, F.DoubtfulEnd(s.turns[0], e))
  {
  }

  // ---- a Supervisor that could not be identified once, and ends well later

  const WAITING := Snapshot(SupWaiting, 1, Some(2), NoEvidence, None, None, false)
  const STOPPED := Snapshot(SupFinished, 1, Some(2), NoEvidence, Some(-15), Some(SignalExit), true)

  function Announced(): Turn { Nonced().(sup := Some(WAITING), runnerFile := Some(2)) }

  lemma WaitingReached()
    ensures var s := KickedOff(WORKER_TEAM).(turns := [Announced()]);
      Reachable(WORKER_TEAM, 0, s) && Inv(s)
  {
    hide Inv;
    SupervisorReached();
    var s1 := KickedOff(WORKER_TEAM).(turns := [Nonced().(sup := Some(FirstSnapshot(1)))]);
    Advance(WORKER_TEAM, s1, PutRunner(0, 2));
    var s2 := Apply(s1, PutRunner(0, 2));
    Advance(WORKER_TEAM, s2, PutSupervisor(0, WAITING));
    assert Apply(s2, PutSupervisor(0, WAITING)) == KickedOff(WORKER_TEAM).(turns := [Announced()]);
  }

  function RecoveryBlock(): Event {
    NextEvent(KickedOff(WORKER_TEAM).events, Block(Recovery, None), Some(WORKER), None, Some(0), 0)
  }

  function BlockedRun(turn: Turn): Store {
    KickedOff(WORKER_TEAM).(turns := [turn], events := KickedOff(WORKER_TEAM).events + [RecoveryBlock()])
  }

  lemma BlockReached(turn: Turn)
    requires Reachable(WORKER_TEAM, 0, KickedOff(WORKER_TEAM).(turns := [turn])) && Inv(KickedOff(WORKER_TEAM).(turns := [turn]))
    requires turn.rt.role == Some(WORKER) && turn.rt.business.Some?
    ensures Permitted(KickedOff(WORKER_TEAM).(turns := [turn]), Commit(RecoveryBlock()))
    ensures Reachable(WORKER_TEAM, 0, BlockedRun(turn)) && Inv(BlockedRun(turn))
    ensures TerminalFor(BlockedRun(turn).events, 0) == Some(RecoveryBlock())
  {
    hide Inv, TerminalFor, Verdict, EventPolicy, CommitAllowed;
    var s := KickedOff(WORKER_TEAM).(turns := [turn]);
    FirstTurnOpen(s);
    BlockAccepted(s, 0, Recovery, None, 0);
    BlockPolicy(s, 0, Recovery, None, 0);
    VerdictAllows(s, Block(Recovery, None), Some(WORKER), None, Some(0), 0);
    Advance(WORKER_TEAM, s, Commit(RecoveryBlock()));
    M.NamedTerminal(Apply(s, Commit(RecoveryBlock())), 0);
  }

  function Unidentified(): Runtime {
    F.VanishedResult(Announced(), WAITING, false).(phase := RecoveryRequired, outcome := Some(Outcome.Failed),
                                                   terminal := Some(RecoveryBlock().id))
  }

  lemma RecoveryReached()
    ensures
      var s := KickedOff(WORKER_TEAM).(turns := [Announced().(rt := Unidentified())],
                                       events := KickedOff(WORKER_TEAM).events + [RecoveryBlock()]);
      Reachable(WORKER_TEAM, 0, s) && Inv(s)
  {
    hide Inv, TerminalFor, ValidRuntime, SaveAllowed, SaveAllowedNow;
    WaitingReached();
    BlockReached(Announced());
    var s := BlockedRun(Announced());
    F.VanishedShape(Announced(), false, {}, RecoveryRequired, Outcome.Failed, RecoveryBlock().id);
    F.FirstEndingSaves(s, 0, Unidentified(), RecoveryBlock());
    EndingSaveAllowed(s, 0, Unidentified(), RecoveryBlock());
    Advance(WORKER_TEAM, s, Save(0, Unidentified()));
    assert Apply(s, Save(0, Unidentified())).turns == [Announced().(rt := Unidentified())];
  }

  // The "unknown" ending recorded while the Supervisor could not be identified
  // is final: the end it reports later can never be saved.
  lemma UnidentifiedIsNeverFinalized()
    ensures exists s: Store :: Reachable(WORKER_TEAM, 0, s) && |s.turns| == 1 && s.turns[0].rt.phase.RecoveryRequired?
              && s.turns[0].sup == Some(STOPPED) && F.ChainConsistent(s.turns[0])
              && forall outcome, id :: !SaveAllowed(s.turns[0].rt, F.ReportedEnd(s.turns[0], outcome, id))
  {
    hide Inv, TerminalFor;
    RecoveryReached();
    var s1 := KickedOff(WORKER_TEAM).(turns := [Announced().(rt := Unidentified())],
                                      events := KickedOff(WORKER_TEAM).events + [RecoveryBlock()]);
    Advance(WORKER_TEAM, s1, Die(2));
    var s2 := Apply(s1, Die(2));
    Advance(WORKER_TEAM, s2, PutSupervisor(0, STOPPED));
    var s3 := Apply(s2, PutSupervisor(0, STOPPED));
    assert s3.turns == [Announced().(rt := Unidentified(), sup := Some(STOPPED))];
    assert Reachable(WORKER_TEAM, 0, s3);
  }

  // ---- "failed" recorded for a Handoff: an Origin role handed off to itself,
  // the process stopped before saving its Runtime, and the retry came late

  function Running(team: Team): Turn
    requires team.Valid()
  {
    Turn(FirstClaim(team, ByOrigin, Some(7)).(phase := Phase.Running, after := Some(7)), None, None, None, None, None)
  }

  lemma RunningReached(team: Team)
    requires team.Valid() && team.roles[team.initialRole].binding.Origin?
    ensures var s := KickedOff(team).(turns := [Running(team)]);
      Reachable(team, 0, s) && Inv(s)
  {
    hide Inv, TerminalFor, SaveAllowedNow, ValidRuntime, SaveAllowed;
    KickoffReached(team);
    ClaimReached(team, KickedOff(team), ByOrigin, Some(7));
    var rt := FirstClaim(team, ByOrigin, Some(7));
    var s1 := KickedOff(team).(turns := [Turn(rt, None, None, None, None, None)]);
    FirstTurnOpen(s1);
    O.BeginAllowed(s1, 0);
    Advance(team, s1, Save(0, rt.(phase := Phase.Running)));
    var s2 := Apply(s1, Save(0, rt.(phase := Phase.Running)));
    O.OriginAfterAllowed(s2, 0, 7);
    Advance(team, s2, Save(0, Running(team).rt));
    assert Apply(s2, Save(0, Running(team).rt)) == KickedOff(team).(turns := [Running(team)]);
  }

  function FirstHandoff(team: Team, to: RoleId): Event {
    NextEvent(KickedOff(team).events, Handoff(Selected), Some(team.initialRole), Some(to), Some(0), 0)
  }

  function HandedOn(team: Team, to: RoleId): Store
    requires team.Valid()
  {
    KickedOff(team).(turns := [Running(team)], events := KickedOff(team).events + [FirstHandoff(team, to)])
  }

  lemma HandoffReached(team: Team, to: RoleId)
    requires team.Valid() && team.roles[team.initialRole].binding.Origin? && to in team.roles
    requires team.maxTurns > 1 && team.edges.None? && team.readOnly == {}
    ensures Reachable(team, 0, HandedOn(team, to)) && Inv(HandedOn(team, to))
    ensures TerminalFor(HandedOn(team, to).events, 0) == Some(FirstHandoff(team, to))
  {
    hide Inv, TerminalFor, Verdict, EventPolicy, CommitAllowed;
    RunningReached(team);
    var s := KickedOff(team).(turns := [Running(team)]);
    FirstTurnOpen(s);
    OpenNumber(s, 0);
    DecisionAccepted(s, 0, Handoff(Selected), Some(to), 0);
    O.ActionPolicy(s, 0, team.initialRole, ToRole(to), 0);
    VerdictAllows(s, Handoff(Selected), Some(team.initialRole), Some(to), Some(0), 0);
    Advance(team, s, Commit(FirstHandoff(team, to)));
    M.NamedTerminal(Apply(s, Commit(FirstHandoff(team, to))), 0);
  }

  lemma RetriedHandoffBreaksRun()
    ensures exists s: Store, e: Event :: Reachable(HOME_TEAM, 0, s) && |s.turns| == 1 && s.turns[0].rt.phase.Running?
              && TerminalFor(s.events, 0) == Some(e) && e.body.Handoff? && ProjectedOwner(s) == s.turns[0].rt.role
              && !(|s.events| > 0 && BeforeDeadline(s, s.clock))
              && ValidRuntime(s.team, O.OriginEnd(s.turns[0].rt, e, Exited, O.GuardOutcome(e)))
              && SaveAllowed(s.turns[0].rt, O.OriginEnd(s.turns[0].rt, e, Exited, O.GuardOutcome(e)))
              && Scan.ScanVerdict(Apply(s, Save(0, O.OriginEnd(s.turns[0].rt, e, Exited, O.GuardOutcome(e))))).Err?
  {
    hide Inv, TerminalFor, Scan.ScanVerdict, ValidRuntime, SaveAllowed;
    HandoffReached(HOME_TEAM, HOME);
    var s1 := HandedOn(HOME_TEAM, HOME);
    var s2 := s1.(clock := 1_000_000);
    Advance(HOME_TEAM, s1, Tick(1_000_000));
    var e := FirstHandoff(HOME_TEAM, HOME);
    O.OriginEndSaves(s2, 0, e, Exited, O.GuardOutcome(e));
    O.WrongEndRefused(s2, 0, e, Exited, O.GuardOutcome(e));
    assert Reachable(HOME_TEAM, 0, s2);
  }

  // ---- a candidate activation failure is finalized differently after a crash:
  // the Origin hands off to a Fresh Worker, which fails while it activates a
  // candidate; finalization stops right behind its Session write

  const BOTH := Team(map[HOME := Role(Origin, Fresh), WORKER := Role(External, Fresh)], HOME, 2, 1, None, {})

  function Sent(): Store
  {
    var s := HandedOn(BOTH, WORKER);
    s.(turns := [Running(BOTH).(rt := O.OriginEnd(Running(BOTH).rt, s.events[1], Finalized, Success))])
  }

  lemma SentReached()
    ensures Reachable(BOTH, 0, Sent()) && Inv(Sent()) && |Sent().events| == 2
  {
    hide Inv, TerminalFor, SaveAllowedNow, ValidRuntime, SaveAllowed, Scan.ScanVerdict;
    HandoffReached(BOTH, WORKER);
    var s := HandedOn(BOTH, WORKER);
    var e := s.events[1];
    O.OriginEndSaves(s, 0, e, Finalized, Success);
    O.OriginEndScans(s, 0, e, Finalized, Success);
    Advance(BOTH, s, Save(0, O.OriginEnd(Running(BOTH).rt, e, Finalized, Success)));
    assert Apply(s, Save(0, O.OriginEnd(Running(BOTH).rt, e, Finalized, Success))) == Sent();
  }

  function Received(): Runtime { BusinessRuntime(Sent(), WORKER, ByWorker, Some(7), 1) }

  // The Worker's Turn with its process files.
  function With(turn: Turn): Store { Sent().(turns := Sent().turns + [turn]) }

  function Claimed(): Turn { Turn(Received(), None, None, None, None, None) }
  function Taken(): Turn { Claimed().(rt := Received().(nonce := Some(5))) }
  function Supervised(): Turn { Taken().(sup := Some(FirstSnapshot(1))) }
  function Waits(): Turn { Taken().(sup := Some(WAITING), runnerFile := Some(2)) }
  function Identified(): Turn { Waits().(rt := Taken().rt.(supervisor := Some(1), runner := Some(2))) }
  function Authorized(): Turn { Identified().(auth := Some(Authorization(1, 2))) }
  function LaunchedTurn(): Turn { Authorized().(rt := Identified().rt.(phase := Phase.Running)) }

  lemma ClaimedReached()
    ensures Reachable(BOTH, 0, With(Claimed())) && Inv(With(Claimed()))
  {
    hide Inv, ClaimAllowed;
    SentReached();
    BusinessClaimAllowed(Sent(), WORKER, ByWorker, Some(7), 1);
    Advance(BOTH, Sent(), Claim(Received()));
    assert Apply(Sent(), Claim(Received())) == With(Claimed());
  }

  // No event names the Worker's Turn yet.
  lemma WorkerOpen(turn: Turn)
    requires Inv(With(turn)) && SameClaim(Received(), turn.rt)
    ensures TerminalFor(With(turn).events, 1).None? && Open(With(turn), 1)
    ensures Continuous(With(turn).events, With(turn).turns, turn.rt)
  {
    hide Inv;
    assert With(turn).turns[1] == turn;
    TerminalIsSuccessor(With(turn), 1);
    UnendedIsOpen(With(turn), 1);
  }

  lemma SavedReached(turn: Turn, rt: Runtime)
    requires Reachable(BOTH, 0, With(turn)) && Inv(With(turn)) && SameClaim(Received(), turn.rt)
    requires Launch.LaunchShape(turn, rt)
    ensures Reachable(BOTH, 0, With(turn.(rt := rt))) && Inv(With(turn.(rt := rt)))
  {
    hide Inv, TerminalFor, SaveAllowedNow, ValidRuntime, SaveAllowed, Continuous;
    WorkerOpen(turn);
    Launch.LaunchSaves(With(turn), 1, rt);
    Advance(BOTH, With(turn), Save(1, rt));
    assert Apply(With(turn), Save(1, rt)).turns == With(turn.(rt := rt)).turns;
  }

  // The Supervisor of the Worker's Turn replaces its snapshot.
  lemma SnapshotReached(turn: Turn, sn: Snapshot, dead: set<Pid>)
    requires Reachable(BOTH, 0, With(turn).(dead := dead)) && Inv(With(turn).(dead := dead))
    requires turn.rt.executor.ByWorker? && turn.rt.nonce.Some? && turn.sup.Some? && turn.sup.value.pid !in dead
    requires ValidSnapshot(sn) && SnapshotAllowed(turn.sup.value, sn)
    requires sn.runner.Some? ==> turn.runnerFile == sn.runner && (sn.state.SupFinished? ==> sn.runner.value in dead)
    ensures
      var s := With(turn.(sup := Some(sn))).(dead := dead);
      Reachable(BOTH, 0, s) && Inv(s)
  {
    hide Inv, Sent, ValidSnapshot, SnapshotAllowed;
    SentTurns();
    var s := With(turn).(dead := dead);
    Advance(BOTH, s, PutSupervisor(1, sn));
    assert Apply(s, PutSupervisor(1, sn)).turns == With(turn.(sup := Some(sn))).turns;
  }

  lemma DeathReached(turn: Turn, dead: set<Pid>, pid: Pid)
    requires Reachable(BOTH, 0, With(turn).(dead := dead)) && Inv(With(turn).(dead := dead))
    ensures
      var s := With(turn).(dead := dead + {pid});
      Reachable(BOTH, 0, s) && Inv(s)
  {
    hide Inv, Sent;
    Advance(BOTH, With(turn).(dead := dead), Die(pid));
  }

  lemma SentTurns()
    ensures |Sent().turns| == 1 && Sent().dead == {}
  {
  }

  lemma LaunchedReached()
    ensures Reachable(BOTH, 0, With(LaunchedTurn())) && Inv(With(LaunchedTurn()))
  {
    hide Inv, Sent;
    ClaimedReached();
    SavedReached(Claimed(), Taken().rt);
    FilesReached();
    AuthorizedReached();
    SavedReached(Authorized(), LaunchedTurn().rt);
  }

  lemma AuthorizedReached()
    requires Reachable(BOTH, 0, With(Waits())) && Inv(With(Waits()))
    ensures Reachable(BOTH, 0, With(Authorized())) && Inv(With(Authorized()))
  {
    hide Inv, Sent;
    SentTurns();
    SavedReached(Waits(), Identified().rt);
    Advance(BOTH, With(Identified()), PutAuthorization(1, Authorization(1, 2)));
    assert Apply(With(Identified()), PutAuthorization(1, Authorization(1, 2))).turns == With(Authorized()).turns;
  }

  lemma FilesReached()
    requires Reachable(BOTH, 0, With(Taken())) && Inv(With(Taken()))
    ensures Reachable(BOTH, 0, With(Waits())) && Inv(With(Waits()))
  {
    hide Inv;
    NothingNamesWorker();
    Advance(BOTH, With(Taken()), PutSupervisor(1, FirstSnapshot(1)));
    assert Apply(With(Taken()), PutSupervisor(1, FirstSnapshot(1))).turns == With(Supervised()).turns;
    RunnerReached();
    var ran := Supervised().(runnerFile := Some(2));
    assert With(ran).(dead := {}) == With(ran) && With(Waits()).(dead := {}) == With(Waits());
    SnapshotReached(ran, WAITING, {});
  }

  lemma RunnerReached()
    requires Reachable(BOTH, 0, With(Supervised())) && Inv(With(Supervised()))
    ensures
      var s := With(Supervised().(runnerFile := Some(2)));
      Reachable(BOTH, 0, s) && Inv(s)
  {
    hide Inv, Sent;
    SentTurns();
    Advance(BOTH, With(Supervised()), PutRunner(1, 2));
    assert Apply(With(Supervised()), PutRunner(1, 2)).turns == With(Supervised().(runnerFile := Some(2))).turns;
  }

  lemma NothingNamesWorker()
    ensures |Sent().events| == 2 && forall k | 0 <= k < 2 :: Sent().events[k].turn != Some(1)
  {
  }

  const REF: Ref := "session"

  function Seen(started: bool): Evidence { Evidence(started, false, false, Some(REF)) }
  function Reports(started: bool): Snapshot {
    Snapshot(if started then SupRunning else SupWaiting, 1, Some(2), Seen(started), None, None, false)
  }
  function Crashed(started: bool): Snapshot { Snapshot(SupFinished, 1, Some(2), Seen(started), Some(1), Some(CrashExit), true) }

  // The Runner crashed, the Supervisor reported it and is gone.
  function CrashedRun(started: bool): Store {
    With(LaunchedTurn().(sup := Some(Crashed(started)))).(dead := {1, 2})
  }

  lemma ReportReached(started: bool)
    ensures
      var s := With(LaunchedTurn().(sup := Some(Reports(started)))).(dead := {2});
      Reachable(BOTH, 0, s) && Inv(s)
  {
    hide Inv, Sent;
    LaunchedReached();
    SentTurns();
    var turn := LaunchedTurn();
    assert With(turn).(dead := {}) == With(turn) && {} + {2} == {2};
    SnapshotReached(turn, Reports(started), {});
    DeathReached(turn.(sup := Some(Reports(started))), {}, 2);
  }

  lemma CrashReached(started: bool)
    ensures Reachable(BOTH, 0, CrashedRun(started)) && Inv(CrashedRun(started))
  {
    hide Inv, Sent;
    ReportReached(started);
    var reported := LaunchedTurn().(sup := Some(Reports(started)));
    var crashed := LaunchedTurn().(sup := Some(Crashed(started)));
    SnapshotReached(reported, Crashed(started), {2});
    assert reported.(sup := Some(Crashed(started))) == crashed && {2} + {1} == {1, 2};
    DeathReached(crashed, {2}, 1);
  }

  const ACTIVATION := F.Answers(true, false, false, false)

  // Uninterrupted, the finding goes back to the sender. After the crash the
  // same finalization is refused for good if the Harness had started, and
  // otherwise blocks the Run.
  lemma CandidateRetryDiffers(started: bool)
    ensures exists s: Store, x: Store :: Reachable(BOTH, 0, s) && Reachable(BOTH, 0, x)
              && F.Reported(s, 1) && F.Reported(x, 1) && TerminalFor(x.events, 1).None? && x == s.(sessions := x.sessions)
              && 1 <= s.turns[1].rt.input.n <= |s.events|
              && F.PlanFor(s, 1, ACTIVATION) == F.EndDelivered(ReturnCandidate(HOME))
              && F.PlanFor(x, 1, ACTIVATION) == if started then F.Refuse else F.EndBlocked(StartFailure)
  {
    hide Inv, TerminalFor;
    CrashReached(started);
    var s := CrashedRun(started);
    CandidatePlans(started);
    T.FinalizationRepeats(BOTH, 0, s, 1, ACTIVATION);
    var x := F.AfterSession(s, 1, true);
    CandidateReplans(started, x);
    assert Reachable(BOTH, 0, s) && Reachable(BOTH, 0, x);
  }

  lemma CandidatePlans(started: bool)
    requires Inv(CrashedRun(started))
    ensures
      var s := CrashedRun(started);
      && F.Reported(s, 1) && Newest(s, 1) && TerminalFor(s.events, 1).None? && !F.MadeUnavailable(s, 1)
      && s.turns[1].rt.input.n == 2 && |s.events| == 2 && s.turns[1].sup.Some?
      && s.turns[1].rt.role == Some(WORKER) && s.turns[1].rt.generation.Some? && WORKER in s.team.roles
      && F.Candidate(s, 1, ACTIVATION) && F.SessionStepOf(s, 1, true).Writes?
      && F.PlanFor(s, 1, ACTIVATION) == F.EndDelivered(ReturnCandidate(HOME))
  {
    hide Inv;
    TerminalIsSuccessor(CrashedRun(started), 1);
  }

  lemma CandidateReplans(started: bool, x: Store)
    requires x == CrashedRun(started).(sessions := x.sessions) && F.MadeUnavailable(x, 1)
    ensures |x.turns| == 2 && x.turns[1].sup.Some? && x.turns[1].rt.input.n == 2 == |x.events|
    ensures F.PlanFor(x, 1, ACTIVATION) == if started then F.Refuse else F.EndBlocked(StartFailure)
  {
    hide F.MadeUnavailable;
  }

  // ---- a generation prepared for a route that is never taken: a Fresh role
  // routes to itself, its Turn is blocked before a Session exists, and the
  // resumed role gets the first generation again

  const KICKED := KickedOff(WORKER_TEAM)

  function Unsent(): Turn { Turn(FirstClaim(WORKER_TEAM, ByWorker, Some(7)), None, None, None, None, None) }
  function Failed(): Runtime { Launch.NotLaunched(Unsent().rt, RecoveryBlock()) }
  function Stopped(): Store { BlockedRun(Unsent().(rt := Failed())) }
  function Manager(): Runtime { ManagementRuntime(Stopped(), 9) }
  function Managed(): Store { Stopped().(turns := Stopped().turns + [Turn(Manager(), None, None, None, None, None)]) }
  function Resumption(): Event { NextEvent(Managed().events, Resume, None, Some(WORKER), Some(1), 0) }
  function Resumed(): Store { Managed().(events := Managed().events + [Resumption()]) }
  function Relieved(): Store {
    Resumed().(turns := Resumed().turns[1 := Resumed().turns[1].(rt := O.OriginEnd(Manager(), Resumption(), Finalized, Success))])
  }

  lemma StoppedReached()
    ensures
      var s := KICKED.(turns := [Unsent()]);
      && Reachable(WORKER_TEAM, 0, s) && Inv(s) && Permitted(s, Commit(RecoveryBlock()))
      && Apply(s, Commit(RecoveryBlock())) == BlockedRun(Unsent())
      && Permitted(BlockedRun(Unsent()), Save(0, Failed())) && Apply(BlockedRun(Unsent()), Save(0, Failed())) == Stopped()
      && Reachable(WORKER_TEAM, 0, Stopped()) && Inv(Stopped())
  {
    hide Inv, TerminalFor, ValidRuntime, SaveAllowed, SaveAllowedNow, CommitAllowed;
    KickoffReached(WORKER_TEAM);
    ClaimReached(WORKER_TEAM, KICKED, ByWorker, Some(7));
    BlockReached(Unsent());
    var s := BlockedRun(Unsent());
    F.FirstEndingSaves(s, 0, Failed(), RecoveryBlock());
    EndingSaveAllowed(s, 0, Failed(), RecoveryBlock());
    Advance(WORKER_TEAM, s, Save(0, Failed()));
    assert Apply(s, Save(0, Failed())).turns == Stopped().turns;
  }

  lemma ManagedReached()
    requires Reachable(WORKER_TEAM, 0, Stopped()) && Inv(Stopped())
    ensures Permitted(Stopped(), Claim(Manager())) && Apply(Stopped(), Claim(Manager())) == Managed()
    ensures Reachable(WORKER_TEAM, 0, Managed()) && Inv(Managed())
  {
    hide Inv, ClaimAllowed;
    var s := Stopped();
    assert Claims(s.turns, s.events[1].id) == {} && ActiveTurns(s.turns) == {};
    ManagementClaimAllowed(s, 9);
    Advance(WORKER_TEAM, s, Claim(Manager()));
  }

  lemma ResumedReached()
    requires Reachable(WORKER_TEAM, 0, Managed()) && Inv(Managed())
    ensures Permitted(Managed(), Commit(Resumption())) && Apply(Managed(), Commit(Resumption())) == Resumed()
    ensures Reachable(WORKER_TEAM, 0, Resumed()) && Inv(Resumed()) && TerminalFor(Resumed().events, 1) == Some(Resumption())
  {
    hide Inv, TerminalFor, Verdict, EventPolicy, CommitAllowed;
    var s := Managed();
    assert BusinessCount(s.turns, 1) == 1 && BusinessCount(s.turns, 2) == 1;
    M.ResumeAccepted(s, 1, 9, WORKER, 0);
    M.ResumePolicy(s, 1, WORKER, 0);
    VerdictAllows(s, Resume, None, Some(WORKER), Some(1), 0);
    Advance(WORKER_TEAM, s, Commit(Resumption()));
    M.NamedTerminal(Resumed(), 1);
  }

  lemma RelievedReached()
    requires Reachable(WORKER_TEAM, 0, Resumed()) && Inv(Resumed()) && TerminalFor(Resumed().events, 1) == Some(Resumption())
    ensures Permitted(Resumed(), Save(1, Relieved().turns[1].rt)) && Apply(Resumed(), Save(1, Relieved().turns[1].rt)) == Relieved()
    ensures Reachable(WORKER_TEAM, 0, Relieved()) && Inv(Relieved())
  {
    hide Inv, TerminalFor, ValidRuntime, SaveAllowed, SaveAllowedNow, Scan.ScanVerdict;
    O.OriginEndSaves(Resumed(), 1, Resumption(), Finalized, Success);
    O.OriginEndScans(Resumed(), 1, Resumption(), Finalized, Success);
    Advance(WORKER_TEAM, Resumed(), Save(1, Relieved().turns[1].rt));
  }

  lemma UntakenRouteDiffers()
    ensures exists s: Store, ws, x: Store, rt: Runtime ::
              && Reachable(WORKER_TEAM, 0, s) && Run(s, ws, x) && R.NoClaimOf(ws, WORKER) && s.team == WORKER_TEAM
              && |s.turns| == 1 && TerminalFor(s.events, 0).None?
              && ClaimAllowed(x, rt) && rt.role == Some(WORKER) && rt.executor.ByWorker?
              && R.Preflight(s, 0, WORKER) == 2 && rt.generation == Some(1)
  {
    hide Inv, ClaimAllowed, Permitted, Apply, TerminalFor;
    StoppedReached();
    ManagedReached();
    ResumedReached();
    RelievedReached();
    var s, x := KICKED.(turns := [Unsent()]), Relieved();
    var ws := [Commit(RecoveryBlock()), Save(0, Failed()), Claim(Manager()), Commit(Resumption()), Save(1, x.turns[1].rt)];
    RunOfFive(s, ws, BlockedRun(Unsent()), Stopped(), Managed(), Resumed(), x);
    FirstTurnOpen(s);
    var rt := BusinessRuntime(x, WORKER, ByWorker, Some(7), 1);
    RelievedClaim();
    assert R.Preflight(s, 0, WORKER) == 2;
    assert Reachable(WORKER_TEAM, 0, s) && R.NoClaimOf(ws, WORKER) && ClaimAllowed(x, rt);
  }

  lemma RelievedClaim()
    requires Inv(Relieved())
    ensures
      var rt := BusinessRuntime(Relieved(), WORKER, ByWorker, Some(7), 1);
      ClaimAllowed(Relieved(), rt) && rt.generation == Some(1)
  {
    hide Inv, ClaimAllowed;
    var x := Relieved();
    assert Claims(x.turns, x.events[2].id) == {} && ActiveTurns(x.turns) == {};
    BusinessClaimAllowed(x, WORKER, ByWorker, Some(7), 1);
  }

  lemma RunOfFive(s: Store, ws: seq<Write>, a: Store, b: Store, c: Store, d: Store, x: Store)
    requires |ws| == 5
    requires Permitted(s, ws[0]) && Apply(s, ws[0]) == a && Permitted(a, ws[1]) && Apply(a, ws[1]) == b
    requires Permitted(b, ws[2]) && Apply(b, ws[2]) == c && Permitted(c, ws[3]) && Apply(c, ws[3]) == d
    requires Permitted(d, ws[4]) && Apply(d, ws[4]) == x
    ensures Run(s, ws, x)
  {
    hide Permitted, Apply;
    assert Run(x, ws[5..], x);
    assert ws[4..][1..] == ws[5..] && ws[3..][1..] == ws[4..] && ws[2..][1..] == ws[3..] && ws[1..][1..] == ws[2..];
    assert Run(d, ws[4..], x);
    assert Run(c, ws[3..], x);
    assert Run(b, ws[2..], x);
    assert Run(a, ws[1..], x);
  }
}
