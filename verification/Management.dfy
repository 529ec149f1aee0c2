/** Commands on a whole Run: kickoff, Resume, Cancel, recover. */
module Management {
  import opened Model
  import opened Options
  import opened Journal
  import opened Turns
  import opened Replay
  import opened Invariant
  import opened Sessions
  import opened Machine
  import opened Endings
  import opened Guards
  import opened FinalSaves
  import opened Directory
  import opened TurnClaims
  import opened Delivery
  import opened Origin
  import F = Finalize
  import L = Later
  import Launch
  import Scan
  import C = CommitProof

  // ---- kickoff

  lemma KickoffAccepted(s: Store, created: int)
    requires Inv(s)
    ensures Verdict(s, NextEvent(s.events, Kickoff, None, Some(s.team.initialRole), None, created)).Ok? <==> s.events == []
  {
    hide ProcInv, PolicyInv, SessionInv, CountInv, JournalInv;
  }

  // The journal part of start_run.
  method CommitKickoff(d: RunDirectory) returns (r: Result<Event>)
    requires d.Valid()
    modifies d
    ensures d.Valid() && old(d.history) <= d.history
    ensures r.Ok? <==> old(d.events) == []
    ensures r.Ok? ==> d.events == [r.value] && r.value.body.Kickoff? && r.value.to == Some(d.team.initialRole)
    ensures r.Ok? ==> ProjectedStatus(d.State()) == RunningRun && ProjectedOwner(d.State()) == Some(d.team.initialRole)
    ensures d.turns == old(d.turns) && (r.Err? ==> d.events == old(d.events))
  {
    hide Inv, Verdict;
    var now := d.Now();
    KickoffAccepted(d.State(), Stamp(now));
    r := d.CommitEvent(Kickoff, None, Some(d.team.initialRole), None, Stamp(now));
  }

  // ---- Resume

  predicate Resumable(s: Store, t: nat, claim: nat) {
    && |s.events| > 0 && t < |s.turns|
    && var tail := s.events[|s.events| - 1];
    && tail.body.Block? && !tail.body.reason.Limit? && !tail.body.reason.ProfileChanged?
    && (forall u | 0 <= u < |s.turns| :: !s.turns[u].rt.phase.RecoveryRequired?)
    && s.turns[t].rt.claim == Some(claim) && s.turns[t].rt.role.None?
    && s.turns[t].rt.phase.Running? && s.turns[t].rt.input == tail.id
  }

  lemma ManagerIsOpen(s: Store, t: nat, claim: nat)
    requires Inv(s) && Resumable(s, t, claim)
    ensures s.turns[t].rt.executor.ByOrigin? && s.turns[t].rt.business.None?
    ensures TerminalFor(s.events, t).None? && Open(s, t) && HeldByOrigin(s.turns[t].rt)
  {
    hide Inv, TerminalFor, Open;
    TurnNamed(s, t);
    NamedAt(s, |s.events| - 1);
    TerminalIsSuccessor(s, t);
    UnendedIsOpen(s, t);
  }

  lemma ResumeAccepted(s: Store, t: nat, claim: nat, to: RoleId, at: int)
    requires Inv(s) && Resumable(s, t, claim) && to in s.team.roles && Timely(s, true, at)
    ensures Verdict(s, NextEvent(s.events, Resume, None, Some(to), Some(t), at)).Ok?
  {
    hide Inv, TerminalFor, ValidateHandoff, ValidateBlock, ValidateCancel;
    ManagerIsOpen(s, t, claim);
    OwnerKnown(s);
  }

  lemma ResumePolicy(s: Store, t: nat, to: RoleId, at: int)
    requires t < |s.turns|
    ensures EventPolicy(s.team, NextEvent(s.events, Resume, None, Some(to), Some(t), at), s.turns, s.dead)
  {
  }

  // origin_resume. Once the limits and the claim have been checked the commit
  // and the save cannot be refused.
  method OriginResume(d: RunDirectory, t: nat, claim: nat, to: RoleId) returns (r: Result<Event>)
    requires d.Valid() && t < |d.turns|
    modifies d
    ensures d.Valid() && old(d.history) <= d.history
    ensures r.Ok? ==> Resumable(old(d.State()), t, claim) && to in d.team.roles
    ensures r.Ok? ==> d.events == old(d.events) + [r.value] && r.value.body.Resume? && r.value.to == Some(to)
                      && Recorded(d.State(), t, r.value) && d.turns[t].rt.phase.Finalized? && Success == OutcomeOf(r.value.body)
    ensures r.Ok? ==> ProjectedStatus(d.State()) == RunningRun && ProjectedOwner(d.State()) == Some(to)
    ensures r.Ok? ==> r.value.created < DeadlineAt(d.State()) && BusinessCount(old(d.turns), |old(d.turns)|) < d.team.maxTurns
    ensures r.Err? ==> d.events == old(d.events) && d.turns == old(d.turns)
    ensures Resumable(old(d.State()), t, claim) && to in d.team.roles && r.Err? ==>
              || BusinessCount(d.turns, |d.turns|) >= d.team.maxTurns || !BeforeDeadline(d.State(), d.clock) || r.why.Unavailable?
  {
    hide Inv, TerminalFor, Verdict, EventPolicy, ValidRuntime, SaveAllowed, Scan.ScanVerdict, TailId;
    if !Resumable(d.State(), t, claim) { return Err(NotResumable); }
    if to !in d.team.roles { return Err(UnknownRole); }
    var prepared: bool := *;
    if !prepared { return Err(Unavailable); }
    ManagerIsOpen(d.State(), t, claim);
    var decision := d.Now();
    if !BeforeDeadline(d.State(), decision) { return Err(PastDeadline); }
    if BusinessCount(d.turns, |d.turns|) >= d.team.maxTurns { return Err(TurnLimit); }
    StampKeepsSide(decision, DeadlineAt(d.State()));
    TailPast(d.State());
    ResumeAccepted(d.State(), t, claim, to, Stamp(decision));
    ResumePolicy(d.State(), t, to, Stamp(decision));
    ghost var before := d.events;
    r := d.CommitEvent(Resume, None, Some(to), Some(t), Stamp(decision));
    TerminalAppended(before, t, r.value);
    var saved := EndOrigin(d, t, r.value, Finalized, Success);
  }

  // ---- Cancel

  // The Turn a Cancel ends, as cancel_run chooses it.
  function CancelTurn(s: Store): Option<nat>
    requires |s.events| > 0
  {
    if ActiveTurns(s.turns) == {} || |s.turns| == 0 then None
    else
      var t := |s.turns| - 1;
      var rt := s.turns[t].rt;
      if ProjectedStatus(s).BlockedRun? && !(rt.executor.ByOrigin? && rt.role.None? && rt.input == s.events[|s.events| - 1].id)
      then None else Some(t)
  }

  // The event that ended the last Turn is committed, its Runtime is not saved yet.
  predicate Unacknowledged(s: Store) {
    |s.turns| > 0 && !s.turns[|s.turns| - 1].rt.phase.Finalized? && TerminalFor(s.events, |s.turns| - 1).Some?
  }

  lemma LastClaim(s: Store)
    requires Inv(s) && |s.events| > 0
    ensures Claims(s.turns, s.events[|s.events| - 1].id) ==
              if |s.turns| > 0 && s.turns[|s.turns| - 1].rt.input.n == |s.events| then {|s.turns| - 1} else {}
  {
    hide ProcInv, PolicyInv, SessionInv, CountInv, Accepted, ValidRuntime;
    forall t | 0 <= t < |s.turns| ensures s.turns[t].rt.input.n <= |s.events| {
      assert Linked(s.events, s.turns[t].rt);
    }
    hide Linked;
    if |s.turns| > 0 && s.turns[|s.turns| - 1].rt.input.n == |s.events| { LinkedTail(s, |s.turns| - 1); }
  }

  lemma LinkedTail(s: Store, t: nat)
    requires Inv(s) && t < |s.turns| && s.turns[t].rt.input.n == |s.events|
    ensures |s.events| > 0 && s.events[|s.events| - 1].id == s.turns[t].rt.input
  {
    hide Inv;
    InputPosition(s, t);
  }

  lemma OpenLastClaim(s: Store)
    requires Inv(s) && |s.turns| > 0
    ensures s.turns[|s.turns| - 1].rt.input.n == |s.events| <==> TerminalFor(s.events, |s.turns| - 1).None?
    ensures s.turns[|s.turns| - 1].rt.input.n == |s.events| ==> !s.turns[|s.turns| - 1].rt.phase.Finalized?
  {
    hide Inv, TerminalFor;
    var t := |s.turns| - 1;
    TerminalIsSuccessor(s, t);
    if TerminalFor(s.events, t).None? { UnendedIsOpen(s, t); }
  }

  // cancel_run is refused exactly while the Turn it names has been ended by an
  // event its Runtime does not record yet.
  lemma CancelAccepted(s: Store, created: int)
    requires Inv(s) && |s.events| > 0 && s.events[|s.events| - 1].created <= created
    requires ProjectedStatus(s).RunningRun? || ProjectedStatus(s).BlockedRun?
    ensures Verdict(s, NextEvent(s.events, Cancel, ProjectedOwner(s), None, CancelTurn(s), created)).Ok? <==>
              !(ProjectedStatus(s).RunningRun? && Unacknowledged(s))
  {
    hide Inv, TerminalFor, ActiveTurns;
    LastClaim(s);
    OneActiveOneClaimant(s, s.events[|s.events| - 1].id);
    if |s.turns| > 0 {
      OpenLastClaim(s);
      TurnNamed(s, |s.turns| - 1);
      InputFitsTurn(s, |s.turns| - 1);
      if TerminalFor(s.events, |s.turns| - 1).None? { UnendedIsOpen(s, |s.turns| - 1); }
    }
    OwnerKnown(s);
  }

  lemma OwnerKnown(s: Store)
    requires Inv(s) && |s.events| > 0
    ensures ProjectedOwner(s).Some? ==> ProjectedOwner(s).value in s.team.roles
    ensures s.events[0].body.Kickoff?
    ensures ProjectedStatus(s).RunningRun? ==> ProjectedOwner(s).Some? && ProjectedOwner(s) == s.events[|s.events| - 1].to
  {
    hide ProcInv, PolicyInv, SessionInv, CountInv, TurnsValid, AllLinked;
    assert StepAccepted(s.team, s.events, s.turns, 0);
    assert StepAccepted(s.team, s.events, s.turns, |s.events| - 1);
  }

  lemma CancelPolicy(s: Store, turn: Option<nat>, from: Option<RoleId>, created: int)
    requires turn.Some? ==> turn.value < |s.turns|
    ensures EventPolicy(s.team, NextEvent(s.events, Cancel, from, None, turn, created), s.turns, s.dead)
  {
  }

  // What a Cancel leaves: its event at the tail, naming the Turn it ends; of an
  // Origin Turn the Runtime too, of any other nothing else.
  predicate CancelDone(a: Store, b: Store, e: Event) {
    && |a.events| > 0 && b.events == a.events + [e] && e.turn == CancelTurn(a) && ProjectedStatus(b).CancelledRun?
    && if e.turn.Some? && e.turn.value < |a.turns| && a.turns[e.turn.value].rt.executor.ByOrigin? then
         Recorded(b, e.turn.value, e) && b.turns[e.turn.value].rt.phase.Exited?
       else b.turns == a.turns
  }

  // cancel_run. An Origin Turn it ends is saved at once, except one that was
  // claimed after the deadline: that save is refused, after the event is out.
  method CancelRun(d: RunDirectory) returns (r: Result<Event>)
    requires d.Valid()
    modifies d
    ensures d.Valid() && old(d.history) <= d.history
    ensures ProjectedStatus(old(d.State())).CancelledRun? ==>
              d.State() == old(d.State()) && |d.events| > 0 && r == Ok(d.events[|d.events| - 1])
    ensures ProjectedStatus(old(d.State())).RunningRun? || ProjectedStatus(old(d.State())).BlockedRun? ==>
              && (r.Ok? || r.why.BadSave? <==> !(ProjectedStatus(old(d.State())).RunningRun? && Unacknowledged(old(d.State()))))
              && (r.Ok? ==> CancelDone(old(d.State()), d.State(), r.value))
    ensures r.Err? && r.why.BadSave? ==>
              exists t | 0 <= t < |d.turns| :: DeadlinePending(d.turns[t].rt) && TerminalFor(d.events, t).Some?
    ensures ProjectedStatus(old(d.State())).CompletedRun? || ProjectedStatus(old(d.State())).UnstartedRun? ==>
              r == Err(NotCancellable) && d.State() == old(d.State())
  {
    hide Inv, TerminalFor, Unacknowledged, CancelDone;
    var status := ProjectedStatus(d.State());
    if status.CancelledRun? {
      CancelledTail(d.State());
      return Ok(d.events[|d.events| - 1]);
    }
    if !status.RunningRun? && !status.BlockedRun? { return Err(NotCancellable); }
    r := CancelStarted(d);
  }

  method CancelStarted(d: RunDirectory) returns (r: Result<Event>)
    requires d.Valid() && (ProjectedStatus(d.State()).RunningRun? || ProjectedStatus(d.State()).BlockedRun?)
    modifies d
    ensures d.Valid() && old(d.history) <= d.history
    ensures r.Ok? || r.why.BadSave? <==> !(ProjectedStatus(old(d.State())).RunningRun? && Unacknowledged(old(d.State())))
    ensures r.Ok? ==> CancelDone(old(d.State()), d.State(), r.value)
    ensures r.Err? && r.why.BadSave? ==>
              exists t | 0 <= t < |d.turns| :: DeadlinePending(d.turns[t].rt) && TerminalFor(d.events, t).Some?
  {
    hide Inv, TerminalFor, Verdict, EventPolicy, ValidRuntime, SaveAllowed, Scan.ScanVerdict, TailId, ActiveTurns, Unacknowledged,
      ProjectedStatus, ProjectedOwner, CancelTurn, DeadlinePending, HeldByOrigin;
    StartedHasTail(d.State());
    ghost var s0 := d.State();
    var owner := ProjectedOwner(d.State());
    var turn := CancelTurn(d.State());
    var now := d.Now();
    TailPast(d.State());
    SameCancel(s0, d.State());
    CancelTurnIsThere(d.State());
    CancelAccepted(d.State(), Stamp(now));
    CancelPolicy(d.State(), turn, owner, Stamp(now));
    CancelledIsOpen(d.State());
    r := d.CommitEvent(Cancel, owner, None, turn, Stamp(now));
    if r.Err? { r := Err(NotAllowed); return; }
    CancelledNow(d.State());
    if turn.Some? && d.turns[turn.value].rt.executor.ByOrigin? {
      var t := turn.value;
      NamedTerminal(d.State(), t);
      var saved := EndOrigin(d, t, r.value, Exited, Cancelled);
      if !saved { UnheldIsPending(d.State(), t); return Err(BadSave); }
      CancelledNow(d.State());
    }
  }

  lemma StartedHasTail(s: Store)
    requires ProjectedStatus(s).RunningRun? || ProjectedStatus(s).BlockedRun?
    ensures |s.events| > 0
  {
  }

  lemma CancelTurnIsThere(s: Store)
    requires |s.events| > 0
    ensures CancelTurn(s).Some? ==> CancelTurn(s).value < |s.turns|
  {
  }

  lemma CancelledIsOpen(s: Store)
    requires Inv(s) && |s.events| > 0 && (ProjectedStatus(s).RunningRun? || ProjectedStatus(s).BlockedRun?)
    ensures CancelTurn(s).Some? && !(ProjectedStatus(s).RunningRun? && Unacknowledged(s)) ==>
              !Ended(s.turns[CancelTurn(s).value].rt.phase)
  {
    hide Inv, TerminalFor;
    if CancelTurn(s).Some? {
      var t := |s.turns| - 1;
      OneActiveOneClaimant(s, s.events[|s.events| - 1].id);
      OpenLastClaim(s);
      NamedAt(s, |s.events| - 1);
      if TerminalFor(s.events, t).None? { UnendedIsOpen(s, t); }
    }
  }

  lemma SameCancel(a: Store, b: Store)
    requires b == a.(clock := b.clock)
    ensures Unacknowledged(a) <==> Unacknowledged(b)
    ensures ProjectedStatus(a) == ProjectedStatus(b) && ProjectedOwner(a) == ProjectedOwner(b)
    ensures |a.events| > 0 ==> CancelTurn(a) == CancelTurn(b)
  {
  }

  lemma CancelledTail(s: Store)
    requires Inv(s) && ProjectedStatus(s).CancelledRun?
    ensures |s.events| > 0 && s.events[|s.events| - 1].body.Cancel?
  {
  }

  lemma CancelledNow(s: Store)
    requires |s.events| > 0 && s.events[|s.events| - 1].body.Cancel?
    ensures ProjectedStatus(s).CancelledRun?
  {
  }

  lemma NamedTerminal(s: Store, t: nat)
    requires Inv(s) && |s.events| > 1 && t < |s.turns| && s.events[|s.events| - 1].turn == Some(t)
    ensures TerminalFor(s.events, t) == Some(s.events[|s.events| - 1])
  {
    hide Inv;
    EveryEventEndsATurn(s, |s.events| - 1);
  }

  lemma UnheldIsPending(s: Store, t: nat)
    requires Inv(s) && t < |s.turns| && s.turns[t].rt.executor.ByOrigin?
    requires !Ended(s.turns[t].rt.phase) && !HeldByOrigin(s.turns[t].rt)
    ensures DeadlinePending(s.turns[t].rt)
  {
    hide Inv;
    TurnNamed(s, t);
  }

  // ---- recover

  lemma UnfinalizedIsLast(s: Store, t: nat)
    requires Inv(s) && t < |s.turns| && !s.turns[t].rt.phase.Finalized?
    ensures t == |s.turns| - 1 && Newest(s, t)
  {
    hide ProcInv, PolicyInv, SessionInv, CountInv, Accepted, ValidRuntime, Linked;
  }

  lemma StartingHasFacts(s: Store, t: nat)
    requires Inv(s) && t < |s.turns| && s.turns[t].rt.executor.ByWorker? && s.turns[t].rt.phase.Starting?
    requires !DeadlinePending(s.turns[t].rt)
    ensures s.turns[t].rt.before.Some?
  {
    hide Inv;
    F.StartedWithFacts(s, t);
  }

  // Why recovery may leave an unfinished External Turn alone: its Supervisor was
  // not seen dead, or it was never announced, nothing has ended the Turn, and
  // its Worker is alive or a process has announced itself meanwhile.
  ghost predicate LeftAlone(was: Store, now: Store, t: nat, workerGone: bool) {
    && t < |was.turns| && t < |now.turns|
    && if was.turns[t].sup.Some? then was.turns[t].sup.value.pid !in was.dead
       else
         && TerminalFor(was.events, t).None? && !DeadlinePending(was.turns[t].rt)
         && (workerGone && now.turns[t].rt.phase.Starting? ==> !Unannounced(now.turns[t]))
  }

  predicate Unfinished(rt: Runtime) { rt.executor.ByWorker? && !rt.phase.Finalized? }

  predicate Unannounced(turn: Turn) { turn.sup.None? && turn.runnerFile.None? && turn.auth.None? }

  // One unfinished External Turn: finalize it, or end it when its Worker is
  // gone and no Supervisor or Runner was ever announced.
  method RecoverTurn(d: RunDirectory, t: nat, workerGone: bool) returns (ended: Result<Option<Event>>)
    requires d.Valid() && t < |d.turns| && d.turns[t].rt.executor.ByWorker? && !d.turns[t].rt.phase.Finalized?
    modifies d
    ensures old(d.history) <= d.history && |d.turns| == |old(d.turns)|
    ensures d.Valid() <==> Scan.ScanVerdict(d.State()).Ok?
    ensures d.Valid() && ended.Ok? && ended.value.Some? ==> Recorded(d.State(), t, ended.value.value)
    ensures ended == Ok(None) ==> LeftAlone(old(d.State()), d.State(), t, workerGone)
  {
    hide Inv, Scan.ScanVerdict, TerminalFor, GroupClosed, DeadlinePending, L.Later;
    UnfinalizedIsLast(d.State(), t);
    ghost var s0, h0 := d.State(), d.history;
    ended := F.FinalizeExternal(d, t, false);
    if ended != Ok(None) || !d.turns[t].rt.phase.Starting? { return; }
    assert d.Valid();
    SinceThen(d, h0);
    L.LaterTurn(s0, d.State(), t);
    if workerGone && Unannounced(d.turns[t]) {
      StillNotPending(s0, d.State(), t);
      StartingHasFacts(d.State(), t);
      ended := Launch.LaunchFailed(d, t, StartFailure);
      Scan.InvScans(d.State());
    }
  }

  // A claim keeps the time it was made at and its Before Facts.
  lemma StillNotPending(a: Store, b: Store, t: nat)
    requires t < |a.turns| && t < |b.turns| && L.TurnLater(a.turns[t], b.turns[t]) && !DeadlinePending(a.turns[t].rt)
    ensures !DeadlinePending(b.turns[t].rt)
  {
  }

  // _recover_run_strict: ends with the scan that decides whether the Run can go on.
  method RecoverRun(d: RunDirectory, workerGone: bool) returns (r: Result<seq<nat>>)
    requires d.Valid()
    modifies d
    ensures old(d.history) <= d.history
    ensures d.Valid() <==> Scan.ScanVerdict(d.State()).Ok?
    ensures r.Ok? ==> d.Valid() && forall i | 0 <= i < |r.value| ::
              r.value[i] < |d.turns| && TerminalFor(d.events, r.value[i]).Some?
              && Recorded(d.State(), r.value[i], TerminalFor(d.events, r.value[i]).value)
    ensures r.Ok? ==> forall t | 0 <= t < |old(d.turns)| && Unfinished(old(d.turns)[t].rt) && t !in r.value ::
              LeftAlone(old(d.State()), d.State(), t, workerGone)
  {
    hide Inv, Scan.ScanVerdict, TerminalFor, GroupClosed;
    Scan.InvScans(d.State());
    if ProjectedStatus(d.State()).UnstartedRun? { return Err(NoKickoff); }
    var n := |d.turns|;
    var actions: seq<nat> := [];
    var t := 0;
    while t < n
      invariant 0 <= t <= n == |d.turns| && old(d.history) <= d.history
      invariant t < n ==> d.Valid() && actions == []
      invariant d.Valid() <==> Scan.ScanVerdict(d.State()).Ok?
      invariant t < n ==> d.State() == old(d.State())
      invariant d.Valid() && n > 0 && t == n && Unfinished(old(d.turns)[n - 1].rt) ==>
                  n - 1 in actions || LeftAlone(old(d.State()), d.State(), n - 1, workerGone)
      invariant d.Valid() ==> forall i | 0 <= i < |actions| ::
                  actions[i] < n && TerminalFor(d.events, actions[i]).Some?
                  && Recorded(d.State(), actions[i], TerminalFor(d.events, actions[i]).value)
    {
      if Unfinished(d.turns[t].rt) {
        UnfinalizedIsLast(d.State(), t);
        var ended := RecoverTurn(d, t, workerGone);
        if ended.Err? { return Err(ended.why); }
        if ended.value.Some? { actions := actions + [t]; }
      }
      t := t + 1;
    }
    forall u | 0 <= u < n && Unfinished(old(d.turns)[u].rt) ensures u == n - 1 {
      UnfinalizedIsLast(old(d.State()), u);
    }
    var scan := d.ScanJournal();
    return if scan.Ok? then Ok(actions) else Err(scan.why);
  }
}
