/** The Supervisor and the Runner of one External Turn, running beside everything else. */
module Processes {
  import opened Model
  import opened Options
  import opened Journal
  import opened Turns
  import opened Replay
  import opened Invariant
  import opened Sessions
  import opened Machine
  import opened Endings
  import opened Guards
  import opened FinalSaves
  import opened Directory
  import opened TurnClaims
  import opened Delivery
  import opened EvidenceMerge
  import opened Finalize
  import L = Later
  import Safety

  // ---- the Supervisor

  // The snapshot this Supervisor wrote last, while it is alive.
  ghost predicate Watching(s: Store, t: nat, nonce: Nonce, me: Pid) {
    && t < |s.turns| && s.turns[t].rt.executor.ByWorker? && s.turns[t].rt.nonce == Some(nonce)
    && s.turns[t].sup.Some? && s.turns[t].sup.value.pid == me && me !in s.dead
  }

  lemma WatchedIsLast(s: Store, t: nat, nonce: Nonce, me: Pid)
    requires Inv(s) && Watching(s, t, nonce, me)
    ensures !s.turns[t].rt.phase.Finalized? && Newest(s, t) && s.turns[t].rt.business.Some?
  {
    WorkerRole(s, t);
    hide PolicyInv, SessionInv, CountInv, TurnsValid, AllLinked, Accepted;
    assert ProcOk(s.turns[t], t, s.dead, s.passed);
  }

  lemma StillWatching(a: Store, b: Store, t: nat, nonce: Nonce, me: Pid)
    requires Watching(a, t, nonce, me) && L.Later(a, b) && Undisturbed(AsSupervisor(t), a, b) && me !in b.dead
    ensures Watching(b, t, nonce, me) && b.turns[t].sup == a.turns[t].sup
  {
    assert L.TurnLater(a.turns[t], b.turns[t]);
  }

  // _save_snapshot: validated, compared with the stored snapshot, replaced.
  method SaveSnapshot(d: RunDirectory, t: nat, nonce: Nonce, me: Pid, sn: Snapshot) returns (saved: bool)
    requires d.Valid() && Watching(d.State(), t, nonce, me)
    requires sn.runner.Some? ==> d.turns[t].runnerFile == sn.runner
    requires sn.state.SupFinished? && sn.runner.Some? ==> sn.runner.value in d.dead
    modifies d
    ensures d.Valid() && old(d.history) <= d.history && Watching(d.State(), t, nonce, me)
    ensures saved <==> ValidSnapshot(sn) && SnapshotAllowed(old(d.turns)[t].sup.value, sn)
    ensures d.State() == old(d.State()).(turns := if saved then old(d.turns)[t := old(d.turns)[t].(sup := Some(sn))] else old(d.turns))
  {
    hide Inv, ValidSnapshot;
    saved := ValidSnapshot(sn) && SnapshotAllowed(d.turns[t].sup.value, sn);
    if saved { d.Perform(PutSupervisor(t, sn)); }
  }

  // The first lock of supervise_turn: nothing is created for an ended Turn.
  method AnnounceSupervisor(d: RunDirectory, t: nat, nonce: Nonce, me: Pid) returns (announced: bool)
    requires d.Valid() && t < |d.turns| && d.turns[t].rt.executor.ByWorker? && me !in d.dead
    modifies d
    ensures d.Valid() && old(d.history) <= d.history
    ensures announced <==> old(d.turns)[t].rt.nonce == Some(nonce) && TerminalFor(old(d.events), t).None? && old(d.turns)[t].sup.None?
    ensures announced ==> Watching(d.State(), t, nonce, me) && d.turns[t].sup == Some(FirstSnapshot(me))
    ensures !announced ==> d.State() == old(d.State())
  {
    hide Inv, TerminalFor;
    announced := d.turns[t].rt.nonce == Some(nonce) && TerminalFor(d.events, t).None? && d.turns[t].sup.None?;
    if announced {
      UnendedIsOpen(d.State(), t);
      NothingNames(d.State(), t);
      d.Perform(PutSupervisor(t, FirstSnapshot(me)));
    }
  }

  lemma NothingNames(s: Store, t: nat)
    requires Inv(s) && t < |s.turns| && TerminalFor(s.events, t).None?
    ensures forall k | 0 <= k < |s.events| :: s.events[k].turn != Some(t)
  {
    hide Inv;
    TerminalFromIs(s.events, t, 0);
    KickoffHasNoTurn(s);
  }

  // mark_session_unavailable, for the generation this Turn was launched with.
  method MarkSession(d: RunDirectory, t: nat, nonce: Nonce, me: Pid, reason: string) returns (marked: bool)
    requires d.Valid() && Watching(d.State(), t, nonce, me)
    modifies d
    ensures d.Valid() && old(d.history) <= d.history
    ensures d.State() == old(d.State()).(sessions := d.sessions)
    ensures marked ==> MadeUnavailable(d.State(), t)
    ensures !marked ==> d.sessions == old(d.sessions)
  {
    hide Inv, MarkUnavailable;
    WatchedIsLast(d.State(), t, nonce, me);
    WorkerRole(d.State(), t);
    var role := d.turns[t].rt.role.value;
    var generation := d.turns[t].rt.generation.value;
    match MarkUnavailable(Lookup(d.sessions, role), t, generation, reason) {
      case Refused(_) => return false;
      case Written(session) =>
        MarkWrites(Lookup(d.sessions, role), t, generation, reason);
        d.Perform(PutSession(t, session));
        return true;
    }
  }

  // What the Supervisor holds in memory beside the snapshot it saved last.
  ghost predicate Holding(s: Store, t: nat, known: Known) {
    t < |s.turns| && s.turns[t].sup.Some? && Ongoing(Memory(known, s.turns[t].sup.value))
  }

  // One record of Harness output. A Session the Harness reports as unavailable
  // is marked before the evidence is saved; a refused report or mark ends the
  // reader of its pipe.
  method RecordEvidence(d: RunDirectory, t: nat, nonce: Nonce, me: Pid, known: EvidenceSnapshot, e: Report) returns (ok: bool)
    requires d.Valid() && Watching(d.State(), t, nonce, me) && Holding(d.State(), t, known.Value())
    requires d.turns[t].runnerFile == d.turns[t].sup.value.runner
    modifies d, known
    ensures d.Valid() && old(d.history) <= d.history && Watching(d.State(), t, nonce, me) && Holding(d.State(), t, known.Value())
    ensures d.events == old(d.events) && d.dead == old(d.dead) && d.passed == old(d.passed)
    ensures known.Value() == Heard(old(known.Value()), e)
    ensures ok ==> Acceptable(old(known.Value()), e)
    ensures d.turns[t].sup.value == (if ok then Next(Memory(old(known.Value()), old(d.turns)[t].sup.value), Hear(e)).sn
                                     else old(d.turns)[t].sup.value)
    ensures ok && known.Value() != old(known.Value()) && e.unavailable.Some? ==> MadeUnavailable(d.State(), t)
    ensures !ok && Acceptable(old(known.Value()), e) ==> e.unavailable.Some? && d.sessions == old(d.sessions)
    ensures d.turns[t].sup.value.runner == old(d.turns)[t].sup.value.runner && d.turns[t].runnerFile == old(d.turns)[t].runnerFile
  {
    hide Inv, SnapshotAllowed, ValidSnapshot;
    var sn := d.turns[t].sup.value;
    ghost var before := known.Value();
    NextSaves(Memory(before, sn), Hear(e));
    MarksOnly(before, e);
    var merged := known.Merge(e);
    if merged.Err? { return false; }
    if !merged.value { return true; }
    if known.unavailable.Some? {
      var marked := MarkSession(d, t, nonce, me, known.unavailable.value);
      if !marked { return false; }
    }
    var saved := SaveSnapshot(d, t, nonce, me, Absorbed(sn, known.Value().evidence));
    assert saved;
    return true;
  }

  // An accepted report about the Session changes nothing else, and once the
  // Session is lost nothing else is merged.
  lemma MarksOnly(k: Known, e: Report)
    ensures Acceptable(k, e) && Heard(k, e) != k && Heard(k, e).unavailable.Some? ==>
              e.unavailable.Some? && Heard(k, e).evidence == k.evidence
    ensures !Acceptable(k, e) ==> EvidenceGrows(k.evidence, Heard(k, e).evidence)
  {
  }

  lemma MarkWrites(current: Option<Session>, t: nat, generation: nat, reason: string)
    requires MarkUnavailable(current, t, generation, reason).Written?
    ensures var session := MarkUnavailable(current, t, generation, reason).session;
            session.ref.None? && session.reason == Some(reason) && session.generation == generation && session.updated == t
  {
  }

  // Why the Supervisor stops the Runner group.
  datatype StopReason = ForDeadline | ForCancel | ForOther

  function ReasonOf(e: Event): StopReason {
    if e.body.Cancel? then ForCancel
    else if e.body.Block? && e.body.limit == Some(LimitReason.Deadline) then ForDeadline
    else ForOther
  }

  // The termination kind of the last snapshot.
  function KindOf(reason: Option<StopReason>, code: int, outputLimit: bool): Termination {
    match reason
    case Some(ForDeadline) => DeadlineExit
    case Some(ForCancel) => CancelledExit
    case Some(ForOther) => SignalExit
    case None => if code == 0 then NormalExit else if code < 0 then SignalExit else if outputLimit then OutputLimit else CrashExit
  }

  // A reason that names the deadline or a Cancel is the event that ended the Turn.
  predicate ReasonTold(events: seq<Event>, t: nat, reason: Option<StopReason>) {
    && (reason == Some(ForDeadline) ==>
          TerminalFor(events, t).Some? && TerminalFor(events, t).value.body.Block?
          && TerminalFor(events, t).value.body.limit == Some(LimitReason.Deadline))
    && (reason == Some(ForCancel) ==> TerminalFor(events, t).Some? && TerminalFor(events, t).value.body.Cancel?)
  }

  lemma {:induction false} TerminalStays(a: seq<Event>, b: seq<Event>, t: nat, k: nat)
    requires a <= b && k <= |a|
    ensures TerminalFrom(a, t, k).Some? ==> TerminalFrom(b, t, k) == TerminalFrom(a, t, k)
    decreases |a| - k
  {
    if k < |a| {
      assert b[k] == a[k];
      TerminalStays(a, b, t, k + 1);
    }
  }

  // The poll inside the watching loop: an ended Turn, the deadline, a permission
  // request or a lost Session stop the group, and so does a directory that can
  // no longer be trusted. The deadline and the request end the Turn here.
  method PollForStop(d: RunDirectory, t: nat, nonce: Nonce, me: Pid, known: Known, trusted: bool) returns (stop: Option<StopReason>)
    requires d.Valid() && Watching(d.State(), t, nonce, me)
    modifies d
    ensures d.Valid() && old(d.history) <= d.history && Watching(d.State(), t, nonce, me)
    ensures d.turns == old(d.turns) && d.dead == old(d.dead) && d.passed == old(d.passed) && d.sessions == old(d.sessions)
    ensures TerminalFor(d.events, t).Some? ==> stop.Some?
    ensures old(d.events) <= d.events && ReasonTold(d.events, t, stop)
    ensures if trusted && TerminalFor(d.events, t).Some? then
              var body := TerminalFor(d.events, t).value.body;
              && (stop == Some(ForCancel) <==> body.Cancel?)
              && (stop == Some(ForDeadline) <==> body.Block? && body.limit == Some(LimitReason.Deadline))
            else stop != Some(ForCancel) && stop != Some(ForDeadline)
    ensures d.events != old(d.events) ==>
              && |d.events| > 0 && d.events == old(d.events) + [d.events[|d.events| - 1]]
              && TerminalFor(d.events, t) == Some(d.events[|d.events| - 1])
              && (|| (DeadlineBlock(d.events[|d.events| - 1]) && !BeforeDeadline(d.State(), d.clock))
                  || (d.events[|d.events| - 1].body == Block(Permission, None) && known.evidence.permission))
    ensures stop.None? ==> d.events == old(d.events) && !known.evidence.permission && known.unavailable.None?
    ensures |d.events| > 0 && (stop.None? ==> d.clock < DeadlineAt(d.State()) * 1000)
  {
    hide Inv, TerminalFor, BlockTimely;
    WatchedIsLast(d.State(), t, nonce, me);
    TurnHasKickoff(d.State(), t);
    if !trusted { return Some(ForOther); }
    if TerminalFor(d.events, t).Some? { return Some(ReasonOf(TerminalFor(d.events, t).value)); }
    var now := d.Now();
    if now >= DeadlineAt(d.State()) * 1000 {
      var e := DeadlineEnds(d, t);
      return Some(ForDeadline);
    }
    if known.evidence.permission {
      var e := BlockNow(d, t, Permission, None);
      return Some(ForOther);
    }
    return if known.unavailable.Some? then Some(ForOther) else None;
  }

  // supervise_turn. At every point where no lock is held, the other processes
  // may act and this one may die; then it writes nothing more. A Supervisor
  // that lives on reports the end of its Runner, unless a report was refused.
  method Supervise(d: RunDirectory, t: nat, nonce: Nonce, me: Pid) returns (announced: bool, clean: bool)
    requires d.Valid() && t < |d.turns| && d.turns[t].rt.executor.ByWorker? && me !in d.dead
    modifies d
    ensures d.Valid() && old(d.history) <= d.history && t < |d.turns|
    ensures announced && clean && me !in d.dead ==> d.turns[t].sup.Some? && LastSnapshot(d.turns[t].sup.value)
    ensures announced && clean && me !in d.dead ==> EndTold(d.events, t, d.turns[t].sup.value)
  {
    hide Inv, TerminalFor, L.Later, Undisturbed;
    clean := true;
    announced := AnnounceSupervisor(d, t, nonce, me);
    if !announced { return; }
    var alive := Pause(d, t, nonce, me);
    if !alive { return; }
    var sn := d.turns[t].sup.value;
    var recognized: bool := *;
    if d.turns[t].runnerFile.None? || !recognized {
      // The Runner did not announce itself, or not as this Supervisor's child:
      // terminated and reaped, whatever it has written.
      var code: int := *;
      var saved := SaveSnapshot(d, t, nonce, me, sn.(state := SupFinished, exitCode := Some(code), kind := Some(UnknownExit), quiescent := true));
      return;
    }
    var runner := d.turns[t].runnerFile.value;
    var waiting := SaveSnapshot(d, t, nonce, me, sn.(state := SupWaiting, runner := Some(runner)));
    clean := Watch(d, t, nonce, me, runner);
  }

  // The process result is in: the snapshot the Supervisor writes last.
  predicate LastSnapshot(sn: Snapshot) {
    sn.exitCode.Some? && sn.kind.Some? && (sn.state.SupFinished? <==> sn.quiescent)
  }

  // A snapshot that says "deadline" or "cancelled" agrees with the journal.
  predicate EndTold(events: seq<Event>, t: nat, sn: Snapshot) {
    && (sn.kind == Some(DeadlineExit) ==>
          TerminalFor(events, t).Some? && TerminalFor(events, t).value.body.Block?
          && TerminalFor(events, t).value.body.limit == Some(LimitReason.Deadline))
    && (sn.kind == Some(CancelledExit) ==> TerminalFor(events, t).Some? && TerminalFor(events, t).value.body.Cancel?)
  }

  // The watching loop, up to the last snapshot. Records that arrive after the
  // process has exited are still heard.
  method Watch(d: RunDirectory, t: nat, nonce: Nonce, me: Pid, runner: Pid) returns (clean: bool)
    requires d.Valid() && Watching(d.State(), t, nonce, me)
    requires d.turns[t].sup.value == FirstSnapshot(me).(state := SupWaiting, runner := Some(runner))
    requires d.turns[t].runnerFile == Some(runner)
    modifies d
    ensures d.Valid() && old(d.history) <= d.history && t < |d.turns|
    ensures clean && me !in d.dead ==> d.turns[t].sup.Some? && LastSnapshot(d.turns[t].sup.value)
    ensures clean && me !in d.dead ==> EndTold(d.events, t, d.turns[t].sup.value)
  {
    hide EndTold, ReasonTold, Inv, ValidSnapshot, SnapshotAllowed, TerminalFor, L.Later, Undisturbed, Ongoing, LastSnapshot;
    var known := new EvidenceSnapshot();
    FirstIsOngoing(me, runner);
    var reason: Option<StopReason> := None;
    clean := true;
    ToldLater(d.events, d.events, t, reason);
    var polls: nat := *;
    while polls > 0
      invariant d.Valid() && old(d.history) <= d.history && fresh(known)
      invariant Watching(d.State(), t, nonce, me) && Holding(d.State(), t, known.Value())
      invariant d.turns[t].sup.value.runner == Some(runner) && d.turns[t].runnerFile == Some(runner)
      invariant clean ==> Consistent(known.Value())
      invariant ReasonTold(d.events, t, reason)
    {
      polls := polls - 1;
      ghost var before := d.events;
      var alive, fine := Listen(d, t, nonce, me, runner, known);
      if !alive { return false; }
      if !fine {
        clean := false;
        reason := Some(ForOther);
      }
      var trusted: bool := *;
      var stop := PollForStop(d, t, nonce, me, known.Value(), trusted);
      if stop.Some? { reason := stop; }
      ToldLater(before, d.events, t, reason);
      if reason.Some? && !d.turns[t].sup.value.state.SupStopping? {
        NextSaves(Memory(known.Value(), d.turns[t].sup.value), Stop);
        var saved := SaveSnapshot(d, t, nonce, me, Stopping(d.turns[t].sup.value));
      }
    }
    ghost var before := d.events;
    var alive, fine := Listen(d, t, nonce, me, runner, known);
    if !alive { return false; }
    if !fine { clean, reason := false, if reason.Some? then reason else Some(ForOther); }
    ToldLater(before, d.events, t, reason);
    var code: int, outputLimit: bool := *, *;
    var reported := Finish(d, t, nonce, me, runner, known.Value(), reason, code, outputLimit);
  }

  lemma ToldLater(a: seq<Event>, b: seq<Event>, t: nat, reason: Option<StopReason>)
    requires a <= b
    ensures ReasonTold(a, t, reason) ==> ReasonTold(b, t, reason)
    ensures reason.None? || reason == Some(ForOther) ==> ReasonTold(b, t, reason)
  {
    TerminalStays(a, b, t, 0);
  }

  lemma FirstIsOngoing(me: Pid, runner: Pid)
    ensures Ongoing(Memory(NOTHING, FirstSnapshot(me).(state := SupWaiting, runner := Some(runner))))
    ensures Consistent(NOTHING)
  {
  }

  // Any number of records from the Harness, while nobody waits for them.
  method Listen(d: RunDirectory, t: nat, nonce: Nonce, me: Pid, runner: Pid, known: EvidenceSnapshot) returns (alive: bool, fine: bool)
    requires d.Valid() && Watching(d.State(), t, nonce, me) && Holding(d.State(), t, known.Value())
    requires d.turns[t].sup.value.runner == Some(runner) && d.turns[t].runnerFile == Some(runner)
    modifies d, known
    ensures d.Valid() && old(d.history) <= d.history && t < |d.turns|
    ensures !alive ==> me in d.dead
    ensures old(d.events) <= d.events
    ensures alive ==> Watching(d.State(), t, nonce, me) && Holding(d.State(), t, known.Value())
    ensures alive ==> d.turns[t].sup.value.runner == Some(runner) && d.turns[t].runnerFile == Some(runner)
    ensures alive && fine && Consistent(old(known.Value())) ==> Consistent(known.Value())
  {
    hide Inv, ValidSnapshot, SnapshotAllowed, TerminalFor, L.Later, Undisturbed, Ongoing, Heard, Acceptable, Consistent;
    fine := true;
    var records: nat := *;
    while records > 0
      invariant d.Valid() && old(d.history) <= d.history && old(d.events) <= d.events
      invariant Watching(d.State(), t, nonce, me) && Holding(d.State(), t, known.Value())
      invariant d.turns[t].sup.value.runner == Some(runner) && d.turns[t].runnerFile == Some(runner)
      invariant fine && Consistent(old(known.Value())) ==> Consistent(known.Value())
    {
      records := records - 1;
      alive := Pause(d, t, nonce, me);
      if !alive { return; }
      var e: Report := *;
      HeardGrows(known.Value(), e);
      var ok := RecordEvidence(d, t, nonce, me, known, e);
      fine := fine && ok;
    }
    alive := Pause(d, t, nonce, me);
  }

  // The last snapshot. It is refused if and only if a refused report has left
  // contradictory evidence behind.
  method Finish(d: RunDirectory, t: nat, nonce: Nonce, me: Pid, runner: Pid, known: Known, reason: Option<StopReason>,
                code: int, outputLimit: bool) returns (reported: bool)
    requires d.Valid() && Watching(d.State(), t, nonce, me) && Holding(d.State(), t, known)
    requires ReasonTold(d.events, t, reason)
    requires d.turns[t].sup.value.runner == Some(runner) && d.turns[t].runnerFile == Some(runner)
    modifies d
    ensures d.Valid() && old(d.history) <= d.history
    ensures |d.turns| == |old(d.turns)| && d.turns[t].sup.Some?
    ensures reported <==> me !in d.dead && Sound(known.evidence)
    ensures reported ==> LastSnapshot(d.turns[t].sup.value) && d.turns[t].sup.value.evidence == known.evidence
    ensures reported ==> d.turns[t].sup.value.exitCode == Some(code) && EndTold(d.events, t, d.turns[t].sup.value)
    ensures reported && reason.None? ==>
              var kind := d.turns[t].sup.value.kind;
              && (kind == Some(NormalExit) <==> code == 0) && (kind == Some(SignalExit) <==> code < 0)
              && (kind == Some(OutputLimit) <==> code > 0 && outputLimit) && (kind == Some(CrashExit) <==> code > 0 && !outputLimit)
    ensures reported && reason.Some? ==>
              var kind := d.turns[t].sup.value.kind;
              && (kind == Some(DeadlineExit) <==> reason.value.ForDeadline?) && (kind == Some(CancelledExit) <==> reason.value.ForCancel?)
              && (kind == Some(SignalExit) <==> reason.value.ForOther?)
    ensures !reported ==> d.turns == old(d.turns)
  {
    hide Inv, ValidSnapshot, SnapshotAllowed, Ongoing, Sound, TerminalFor;
    var turn := d.turns[t];
    var quiescent := d.Gone(runner);
    assert d.turns[t] == turn;
    if me in d.dead { return false; }
    var kind := KindOf(reason, code, outputLimit);
    LastSavePasses(Memory(known, turn.sup.value), code, kind, quiescent);
    assert Watching(d.State(), t, nonce, me);
    reported := SaveSnapshot(d, t, nonce, me, Final(turn.sup.value, known.evidence, code, kind, quiescent));
  }

  method Pause(d: RunDirectory, t: nat, nonce: Nonce, me: Pid) returns (alive: bool)
    requires d.Valid() && Watching(d.State(), t, nonce, me)
    modifies d
    ensures d.Valid() && old(d.history) <= d.history && t < |d.turns| && old(d.events) <= d.events
    ensures alive <==> me !in d.dead
    ensures alive ==> Watching(d.State(), t, nonce, me) && d.turns[t].sup == old(d.turns)[t].sup
    ensures alive && old(d.turns)[t].runnerFile.Some? ==> d.turns[t].runnerFile == old(d.turns)[t].runnerFile
  {
    hide Inv, L.Later, Undisturbed;
    ghost var s0 := d.State();
    d.Interfere(AsSupervisor(t));
    alive := me !in d.dead;
    L.LaterTurn(s0, d.State(), t);
    if alive { StillWatching(s0, d.State(), t, nonce, me); }
  }

  // ---- the Runner

  // _run_harness_runner. If the gate opens, this group is the only Harness
  // group of the Run that is not gone.
  method RunHarness(d: RunDirectory, t: nat, nonce: Nonce, me: Pid, supervisor: Pid) returns (executes: bool)
    requires d.Valid() && t < |d.turns| && d.turns[t].rt.executor.ByWorker? && d.turns[t].rt.nonce == Some(nonce)
    modifies d
    ensures d.Valid() && old(d.history) <= d.history
    ensures executes ==> (t, me) in d.passed && me !in d.dead
    ensures executes ==> forall p | p in d.passed && p.1 !in d.dead :: p == (t, me)
    ensures executes ==> t == |d.turns| - 1 && d.turns[t].rt.phase.Running? && Continuous(d.events, d.turns, d.turns[t].rt)
  {
    hide Inv, L.Later, Undisturbed, Continuous;
    if d.turns[t].runnerFile.Some? { return false; }
    d.Perform(PutRunner(t, me));
    ghost var s0 := d.State();
    d.Interfere(AsAnyone);
    L.LaterTurn(s0, d.State(), t);
    if me in d.dead { return false; }
    // under the shared lock
    var turn := d.turns[t];
    if || turn.auth.None? || turn.auth.value != Authorization(supervisor, me)
       || !turn.rt.executor.ByWorker? || !turn.rt.phase.Running? || turn.rt.nonce != Some(nonce)
       || turn.rt.supervisor != Some(supervisor) || turn.rt.runner != Some(me)
    {
      return false;
    }
    var identity := Identity(d, supervisor);
    if !identity.Match? || me in d.dead { return false; }
    d.Perform(PassGate(t, me));
    GateIsAlone(d.State(), t, me);
    return true;
  }

  lemma GateIsAlone(s: Store, t: nat, me: Pid)
    requires Inv(s) && (t, me) in s.passed && me !in s.dead && t < |s.turns| && s.turns[t].rt.phase.Running?
    ensures forall p | p in s.passed && p.1 !in s.dead :: p == (t, me)
    ensures t == |s.turns| - 1 && Continuous(s.events, s.turns, s.turns[t].rt)
  {
    Safety.InvExclusive(s);
    hide JournalInv, SessionInv, CountInv, Continuous;
    Safety.LiveGroupIsLast(s, (t, me));
    RunnerHasNonce(s, t);
  }

  lemma RunnerHasNonce(s: Store, t: nat)
    requires Inv(s) && t < |s.turns| && s.turns[t].rt.phase.Running?
    requires exists p :: p in s.passed && p.0 == t
    ensures s.turns[t].rt.nonce.Some?
  {
    hide JournalInv, PolicyInv, SessionInv, CountInv;
    assert ProcOk(s.turns[t], t, s.dead, s.passed);
  }
}
