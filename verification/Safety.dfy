/** What holds in every state that any interleaving of writes, crashes and process deaths can reach. */
module Safety {
  import opened Model
  import opened Options
  import opened Journal
  import opened Turns
  import opened Replay
  import opened Invariant
  import opened Sessions
  import opened Machine
  import C = CommitProof
  import K = ClaimProof
  import S = SaveProof
  import P = ProcessProof

  function Initial(team: Team, now: int): Store {
    Store(team, [], [], map[], now, {}, {})
  }

  lemma InitialInv(team: Team, now: int)
    requires team.Valid()
    ensures Inv(Initial(team, now))
  {
  }

  lemma CommitKeepsInv(s: Store, e: Event)
    requires Inv(s) && CommitAllowed(s, e)
    ensures Inv(Apply(s, Commit(e)))
  {
    hide StepAccepted, ValidRuntime, Linked, ProcInv, SessionInv, Accepted, Pending;
    C.CommitKeepsJournal(s, e);
    C.CommitKeepsCount(s, e);
    C.CommitKeepsPolicy(s, e);
    var s' := Apply(s, Commit(e));
    assert ProcInv(s') && SessionInv(s') by { SameTurns(s, e); }
  }

  lemma SameTurns(s: Store, e: Event)
    requires ProcInv(s) && SessionInv(s) && RouteHeld(s, e)
    ensures ProcInv(s.(events := s.events + [e])) && SessionInv(s.(events := s.events + [e]))
  {
    var s' := s.(events := s.events + [e]);
    assert ProcInv(s');
    hide ProcOk, Routed, InStep, SessionOk, LaunchGeneration, Begins;
    forall t | 0 <= t < |s'.turns| ensures StepHeld(s', t) && ClaimHeld(s', t) && LaunchOk(s', t) && SettledOnce(s', t) {
      assert StepHeld(s, t) && ClaimHeld(s, t) && LaunchOk(s, t) && SettledOnce(s, t);
    }
    forall k | 0 <= k < |s'.events| ensures RouteHeld(s', s'.events[k]) {
      SameRoute(s, e, s'.events[k]);
    }
  }

  lemma SameRoute(s: Store, e: Event, x: Event)
    requires RouteHeld(s, x)
    ensures RouteHeld(s.(events := s.events + [e]), x)
  {
  }

  lemma ClaimKeepsInv(s: Store, rt: Runtime)
    requires Inv(s) && ClaimAllowed(s, rt)
    ensures Inv(Apply(s, Claim(rt)))
  {
    hide ClaimAllowed, ProcInv, SessionInv, PolicyInv, CountInv, Accepted, ValidRuntime, Linked;
    K.ClaimKeepsJournal(s, rt);
    K.ClaimKeepsProcess(s, rt);
    K.ClaimKeepsPolicy(s, rt);
    K.ClaimKeepsSessions(s, rt);
    K.ClaimKeepsCount(s, rt);
  }

  lemma SaveKeepsInv(s: Store, t: nat, rt: Runtime)
    requires Inv(s) && SaveAllowedNow(s, t, rt)
    ensures Inv(Apply(s, Save(t, rt)))
  {
    hide ProcInv, SessionInv, PolicyInv, CountInv, Accepted, ValidRuntime, Linked;
    S.SaveKeepsJournal(s, t, rt);
    S.SaveKeepsProcessInv(s, t, rt);
    S.SaveKeepsPolicy(s, t, rt);
    S.SaveKeepsSessions(s, t, rt);
    S.SaveKeepsCount(s, t, rt);
  }

  // No permitted write, in any state, leaves the invariant.
  lemma WriteKeepsInv(s: Store, w: Write)
    requires Inv(s) && Permitted(s, w)
    ensures Inv(Apply(s, w))
  {
    hide Inv, CommitAllowed, ClaimAllowed, SaveAllowedNow, GateOpens, SessionAllowed, SupervisorAllowed, AuthorizationAllowed;
    match w {
      case Commit(e) => CommitKeepsInv(s, e);
      case Claim(rt) => ClaimKeepsInv(s, rt);
      case Save(t, rt) => SaveKeepsInv(s, t, rt);
      case PutSession(t, session) => P.SessionKeepsInv(s, t, session);
      case PassGate(t, pid) => P.GateKeepsInv(s, t, pid);
      case Tick(now) => P.TickKeepsInv(s, now);
      case Die(pid) => P.DieKeepsInv(s, pid);
      case _ => P.FileWriteKeepsInv(s, w);
    }
  }

  // ---- runs

  // The state after a sequence of permitted writes, wherever a crash cut it.
  ghost predicate Run(s: Store, ws: seq<Write>, s': Store)
    decreases |ws|
  {
    if ws == [] then s' == s
    else Permitted(s, ws[0]) && Run(Apply(s, ws[0]), ws[1..], s')
  }

  ghost predicate Reachable(team: Team, now: int, s: Store) {
    exists ws :: Run(Initial(team, now), ws, s)
  }

  lemma {:induction false} RunKeepsInv(s: Store, ws: seq<Write>, s': Store)
    requires Inv(s) && Run(s, ws, s')
    ensures Inv(s')
    decreases |ws|
  {
    hide Inv, Permitted;
    if ws != [] {
      WriteKeepsInv(s, ws[0]);
      RunKeepsInv(Apply(s, ws[0]), ws[1..], s');
    }
  }

  lemma ReachableInv(team: Team, now: int, s: Store)
    requires team.Valid() && Reachable(team, now, s)
    ensures Inv(s)
  {
    hide Inv, Permitted;
    var ws :| Run(Initial(team, now), ws, s);
    InitialInv(team, now);
    RunKeepsInv(Initial(team, now), ws, s);
  }

  lemma {:induction false} RunOneMore(a: Store, ws: seq<Write>, b: Store, w: Write)
    requires Run(a, ws, b) && Permitted(b, w)
    ensures Run(a, ws + [w], Apply(b, w))
    decreases |ws|
  {
    hide Permitted, Apply;
    if ws == [] {
      assert (ws + [w])[1..] == [];
    } else {
      RunOneMore(Apply(a, ws[0]), ws[1..], b, w);
      assert (ws + [w])[1..] == ws[1..] + [w];
    }
  }

  lemma ReachesOneMore(team: Team, now: int, s: Store, w: Write)
    requires Reachable(team, now, s) && Permitted(s, w)
    ensures Reachable(team, now, Apply(s, w))
  {
    hide Permitted, Apply;
    var ws :| Run(Initial(team, now), ws, s);
    RunOneMore(Initial(team, now), ws, s, w);
  }

  lemma ReachesInitial(team: Team, now: int)
    ensures Reachable(team, now, Initial(team, now))
  {
    assert Run(Initial(team, now), [], Initial(team, now));
  }

  // ---- mutual exclusion of Harness process groups

  // Two live groups that both passed the authorization gate are the same
  // group, launched for the same Turn.
  predicate Exclusive(s: Store) {
    forall a, b | a in s.passed && b in s.passed && a.1 !in s.dead && b.1 !in s.dead :: a == b
  }

  lemma InvExclusive(s: Store)
    requires Inv(s)
    ensures Exclusive(s)
  {
    hide Accepted, ValidRuntime, Linked, PolicyInv, SessionInv, CountInv;
    forall a, b | a in s.passed && b in s.passed && a.1 !in s.dead && b.1 !in s.dead ensures a == b {
      LiveGroupIsLast(s, a);
      LiveGroupIsLast(s, b);
    }
  }

  lemma LiveGroupIsLast(s: Store, p: (nat, Pid))
    requires ProcInv(s) && EarlierClosed(s.turns) && p in s.passed && p.1 !in s.dead
    ensures p.0 == |s.turns| - 1 && s.turns[p.0].rt.runner == Some(p.1) && !s.turns[p.0].rt.phase.Finalized?
  {
    assert ProcOk(s.turns[p.0], p.0, s.dead, s.passed);
  }

  // At every point of every run, at most one authorized Harness group is alive.
  lemma AtMostOneHarness(team: Team, now: int, s: Store)
    requires team.Valid() && Reachable(team, now, s)
    ensures Exclusive(s)
  {
    ReachableInv(team, now, s);
    InvExclusive(s);
  }
}
