/** deliver_outbox_locked: the guard, the After Facts, and the one event that ends the Turn. */
module Delivery {
  import opened Model
  import opened Options
  import opened Journal
  import opened Turns
  import opened Replay
  import opened Invariant
  import opened Sessions
  import opened Machine
  import opened Endings
  import opened Guards
  import opened FinalSaves
  import opened Directory
  import opened TurnClaims
  import Limits

  function DeadlineAt(s: Store): int
    requires |s.events| > 0
  {
    DeadlineOf(s.team, s.events[0])
  }

  lemma TailPast(s: Store)
    requires Inv(s) && |s.events| > 0
    ensures s.events[|s.events| - 1].created <= Stamp(s.clock)
  {
  }

  // A technical Block stamped with a given time.
  method BlockAt(d: RunDirectory, t: nat, reason: BlockReason, limit: Option<LimitReason>, created: int)
      returns (r: Result<Event>)
    requires d.Valid() && t < |d.turns| && d.turns[t].rt.business.Some? && !reason.Agent?
    requires |d.events| > 0 && d.events[|d.events| - 1].created <= created <= Stamp(d.clock)
    modifies d
    ensures d.Valid() && old(d.history) <= d.history && |d.events| > 0
    ensures d.State() == old(d.State()).(events := d.events)
    ensures r.Ok? <==> || TerminalFor(old(d.events), t).Some?
                       || BlockTimely(d.team, d.turns[t].rt, reason, limit, created, DeadlineAt(old(d.State())))
    ensures r.Ok? ==> TerminalFor(d.events, t) == Some(r.value)
    ensures TerminalFor(old(d.events), t).Some? || r.Err? ==> d.events == old(d.events)
    ensures TerminalFor(old(d.events), t).None? && r.Ok? ==>
              d.events == old(d.events) + [r.value] && r.value.body == Block(reason, limit)
  {
    hide Inv, Verdict, BlockTimely, TerminalFor;
    var s := d.State();
    if TerminalFor(d.events, t).None? {
      UnendedIsOpen(s, t);
      BlockAccepted(s, t, reason, limit, created);
    }
    r := d.CommitTechnicalBlock(t, reason, limit, created);
  }

  // A technical Block stamped with the current time.
  method BlockNow(d: RunDirectory, t: nat, reason: BlockReason, limit: Option<LimitReason>) returns (r: Result<Event>)
    requires d.Valid() && t < |d.turns| && d.turns[t].rt.business.Some? && !reason.Agent?
    modifies d
    ensures d.Valid() && old(d.history) <= d.history && |d.events| > 0
    ensures d.State() == old(d.State()).(events := d.events, clock := d.clock) && old(d.clock) <= d.clock
    ensures r.Ok? <==> || TerminalFor(old(d.events), t).Some?
                       || BlockTimely(d.team, d.turns[t].rt, reason, limit, Stamp(d.clock), DeadlineAt(d.State()))
    ensures r.Ok? ==> TerminalFor(d.events, t) == Some(r.value)
    ensures TerminalFor(old(d.events), t).Some? || r.Err? ==> d.events == old(d.events)
    ensures TerminalFor(old(d.events), t).None? && r.Ok? ==>
              d.events == old(d.events) + [r.value] && r.value.body == Block(reason, limit)
  {
    hide Inv, Verdict, BlockTimely, TerminalFor;
    TurnHasKickoff(d.State(), t);
    var now := d.Now();
    TailPast(d.State());
    r := BlockAt(d, t, reason, limit, Stamp(now));
  }

  // ---- the delivery guard

  // Go: the decision is frozen at this millisecond. Ended: an event closed the Turn.
  datatype Guarded = Go(at: int) | Already(e: Event)

  predicate Timely(s: Store, handoff: bool, at: int) {
    && |s.events| > 0
    && s.events[|s.events| - 1].created <= at <= Stamp(s.clock)
    && at < DeadlineAt(s)
    && (handoff ==> BusinessCount(s.turns, |s.turns|) < s.team.maxTurns)
  }

  predicate Decided(s: Store, t: nat, handoff: bool, at: int) {
    TerminalFor(s.events, t).None? && Timely(s, handoff, at)
  }

  // The Blocks a guard may commit.
  predicate GuardBlock(e: Event) {
    || DeadlineBlock(e)
    || e.body == Block(Limit, Some(MaxTurns))
    || e.body == Block(ProfileChanged, None)
  }

  // What a guard that did not let the action pass has committed, and why.
  predicate Stopped(x: Store, handoff: bool, externalTarget: bool, prepared: bool, e: Event)
    requires |x.events| > 0
  {
    || (e.body == Block(Limit, Some(LimitReason.Deadline)) && !BeforeDeadline(x, x.clock))
    || (e.body == Block(Limit, Some(MaxTurns)) && handoff && BusinessCount(x.turns, |x.turns|) >= x.team.maxTurns)
    || (e.body == Block(ProfileChanged, None) && handoff && externalTarget && !prepared)
  }

  lemma StoppedByGuard(x: Store, handoff: bool, externalTarget: bool, prepared: bool, e: Event)
    requires |x.events| > 0 && Stopped(x, handoff, externalTarget, prepared, e)
    ensures GuardBlock(e)
  {
  }

  // guard_action: the limits, then the profile of an External target, which the
  // adapter can prepare or not. For a Turn no event has ended, the only refusal
  // left is a max_turns or profile_changed Block overtaken by the deadline.
  method GuardAction(d: RunDirectory, t: nat, handoff: bool, externalTarget: bool, prepared: bool) returns (r: Result<Guarded>)
    requires d.Valid() && t < |d.turns| && d.turns[t].rt.business.Some?
    modifies d
    ensures d.Valid() && old(d.history) <= d.history && |d.events| > 0
    ensures d.State() == old(d.State()).(events := d.events, clock := d.clock) && old(d.clock) <= d.clock
    ensures r.Err? ==> d.events == old(d.events) && Stamp(d.clock) >= DeadlineAt(d.State())
    ensures r.Ok? && r.value.Already? ==> TerminalFor(d.events, t) == Some(r.value.e)
    ensures r.Ok? && r.value.Already? && TerminalFor(old(d.events), t).None? ==>
              && Stopped(d.State(), handoff, externalTarget, prepared, r.value.e) && GuardBlock(r.value.e)
              && d.events == old(d.events) + [r.value.e]
    ensures r.Ok? && r.value.Already? && TerminalFor(old(d.events), t).Some? ==>
              TerminalFor(old(d.events), t) == Some(r.value.e)
    ensures r.Ok? && r.value.Go? ==>
              && d.events == old(d.events) && Timely(d.State(), handoff, r.value.at)
              && BeforeDeadline(d.State(), d.clock) && (handoff && externalTarget ==> prepared)
  {
    hide Inv, TerminalFor, TailId, BlockTimely;
    TurnHasKickoff(d.State(), t);
    var deadline := DeadlineAt(d.State());
    var now := d.Now();
    StampKeepsSide(now, deadline);
    if now >= deadline * 1000 {
      var e := DeadlineEnds(d, t);
      return Ok(Already(e));
    }
    if handoff {
      if BusinessCount(d.turns, |d.turns|) >= d.team.maxTurns {
        if TerminalFor(d.events, t).None? { LastNumber(d.State(), t); }
        var e := BlockNow(d, t, Limit, Some(MaxTurns));
        LastTurnTimely(d.team, d.turns[t].rt, Stamp(d.clock), DeadlineAt(d.State()));
        if e.Err? { return Err(e.why); }
        return Ok(Already(e.value));
      }
      if externalTarget && !prepared {
        var probed := d.Now();
        var e := UnpreparedEnds(d, t, probed);
        return Ok(Already(e));
      }
    }
    var decision := d.Now();
    StampKeepsSide(decision, deadline);
    if decision >= deadline * 1000 {
      var e := DeadlineEnds(d, t);
      return Ok(Already(e));
    }
    TailPast(d.State());
    return Ok(Go(Stamp(decision)));
  }

  lemma LastTurnTimely(team: Team, rt: Runtime, created: int, deadline: int)
    ensures BlockTimely(team, rt, Limit, Some(MaxTurns), created, deadline) <==>
              created < deadline && rt.business == Some(team.maxTurns)
  {
  }

  // A deadline Block stamped after the deadline is never refused.
  method DeadlineEnds(d: RunDirectory, t: nat) returns (e: Event)
    requires d.Valid() && t < |d.turns| && d.turns[t].rt.business.Some? && |d.events| > 0
    requires d.clock >= DeadlineAt(d.State()) * 1000
    modifies d
    ensures d.Valid() && old(d.history) <= d.history && |d.events| > 0
    ensures d.State() == old(d.State()).(events := d.events, clock := d.clock) && old(d.clock) <= d.clock
    ensures TerminalFor(d.events, t) == Some(e)
    ensures TerminalFor(old(d.events), t).None? ==> DeadlineBlock(e) && d.events == old(d.events) + [e]
    ensures TerminalFor(old(d.events), t).Some? ==> TerminalFor(old(d.events), t) == Some(e) && d.events == old(d.events)
  {
    hide Inv, TerminalFor;
    var r := BlockNow(d, t, Limit, Some(LimitReason.Deadline));
    StampKeepsSide(d.clock, DeadlineAt(d.State()));
    assert r.Ok?;
    e := r.value;
  }

  // The target's profile could not be prepared; the probe's own time decides.
  method UnpreparedEnds(d: RunDirectory, t: nat, probed: int) returns (e: Event)
    requires d.Valid() && t < |d.turns| && d.turns[t].rt.business.Some? && |d.events| > 0 && probed == d.clock
    modifies d
    ensures d.Valid() && old(d.history) <= d.history && |d.events| > 0
    ensures d.State() == old(d.State()).(events := d.events, clock := d.clock) && old(d.clock) <= d.clock
    ensures TerminalFor(d.events, t) == Some(e)
    ensures TerminalFor(old(d.events), t).None? ==>
              && d.events == old(d.events) + [e]
              && if BeforeDeadline(d.State(), d.clock) then e.body == Block(ProfileChanged, None) else DeadlineBlock(e)
    ensures TerminalFor(old(d.events), t).Some? ==> TerminalFor(old(d.events), t) == Some(e) && d.events == old(d.events)
  {
    hide Inv, TerminalFor;
    TailPast(d.State());
    StampKeepsSide(probed, DeadlineAt(d.State()));
    var r;
    if probed >= DeadlineAt(d.State()) * 1000 {
      r := BlockAt(d, t, Limit, Some(LimitReason.Deadline), Stamp(probed));
    } else {
      r := BlockAt(d, t, ProfileChanged, None, Stamp(probed));
    }
    assert r.Ok?;
    e := r.value;
  }

  // delivery_guard: an event that already ended the Turn comes first.
  method Guard(d: RunDirectory, t: nat, handoff: bool, externalTarget: bool, prepared: bool) returns (r: Result<Guarded>)
    requires d.Valid() && t < |d.turns| && d.turns[t].rt.business.Some?
    modifies d
    ensures d.Valid() && old(d.history) <= d.history && |d.events| > 0
    ensures d.State() == old(d.State()).(events := d.events, clock := d.clock) && old(d.clock) <= d.clock
    ensures r.Err? ==> d.events == old(d.events) && Stamp(d.clock) >= DeadlineAt(d.State())
    ensures r.Ok? && r.value.Already? ==> TerminalFor(d.events, t) == Some(r.value.e)
    ensures r.Ok? && r.value.Already? && TerminalFor(old(d.events), t).None? ==>
              Stopped(d.State(), handoff, externalTarget, prepared, r.value.e) && d.events == old(d.events) + [r.value.e]
    ensures r.Ok? && r.value.Go? ==>
              && d.events == old(d.events) && Decided(d.State(), t, handoff, r.value.at)
              && BeforeDeadline(d.State(), d.clock) && (handoff && externalTarget ==> prepared)
    ensures TerminalFor(old(d.events), t).Some? ==>
              r == Ok(Already(TerminalFor(old(d.events), t).value)) && d.State() == old(d.State())
  {
    hide Inv, TerminalFor, TailId, Timely;
    TurnHasKickoff(d.State(), t);
    var existing := TerminalFor(d.events, t);
    if existing.Some? { return Ok(Already(existing.value)); }
    r := GuardAction(d, t, handoff, externalTarget, prepared);
  }

  // The guard counts Turns, the validator compares the Turn's own number.
  lemma LastNumber(s: Store, t: nat)
    requires Inv(s) && t < |s.turns| && s.turns[t].rt.business.Some? && TerminalFor(s.events, t).None?
    requires BusinessCount(s.turns, |s.turns|) >= s.team.maxTurns
    ensures s.turns[t].rt.business == Some(s.team.maxTurns)
  {
    hide Inv;
    UnendedIsOpen(s, t);
    OpenNumber(s, t);
    Limits.Bounded(s);
  }

  // ---- delivery

  // What finalization asks for: the role's own action, a continuation after an
  // output limit, or the return of a failed candidate to the sending role.
  datatype Mode = OwnAction | Continue | ReturnCandidate(to: RoleId)

  datatype Delivered = Delivered(e: Event) | Damaged | Undelivered(why: Refusal)

  predicate ModeReady(s: Store, t: nat, mode: Mode)
    requires t < |s.turns|
  {
    match mode
    case OwnAction => Routed(s, t, Selected)
    case Continue => FrozenFor(s.turns[t], Continuation, s.dead) && Routed(s, t, Continuation)
    case ReturnCandidate(to) =>
      && Routed(s, t, CandidateFailed)
      && FrozenFor(s.turns[t], CandidateFailed, s.dead)
      && to in s.team.roles && s.turns[t].rt.role != Some(to)
      && (s.turns[t].rt.role.Some? && s.turns[t].rt.role.value in s.team.roles ==>
            s.team.roles[s.turns[t].rt.role.value].policy.Fresh?)
  }

  function BodyOf(mode: Mode, outbox: Option<Action>): Body {
    match mode
    case Continue => Handoff(Continuation)
    case ReturnCandidate(_) => Handoff(CandidateFailed)
    case OwnAction =>
      match outbox
      case None => Block(NoAction, None)
      case Some(ToRole(_)) => Handoff(Selected)
      case Some(ToComplete) => Complete
      case Some(ToBlock) => Block(Agent, None)
  }

  function TargetOf(mode: Mode, outbox: Option<Action>, role: Option<RoleId>): Option<RoleId> {
    match mode
    case Continue => role
    case ReturnCandidate(to) => Some(to)
    case OwnAction => if outbox.Some? && outbox.value.ToRole? then Some(outbox.value.target) else None
  }

  // What the files and the adapter answer during one delivery: the target is
  // probed up to three times.
  datatype Checks = Checks(outboxReadable: bool, factsReadable: bool, captures: bool, beforeReadable: bool,
                           payloadOrphaned: bool, payloadReadable: bool, first: bool, second: bool, third: bool)

  predicate Technical(e: Event) { e.body.Block? && !e.body.reason.Agent? }

  predicate WantsHandoff(turn: Turn, mode: Mode) {
    !mode.OwnAction? || (turn.outbox.Some? && turn.outbox.value.ToRole?)
  }

  // The role a delivery would hand the token to is executed by a Worker.
  predicate ToWorker(s: Store, t: nat, mode: Mode)
    requires t < |s.turns|
  {
    match mode
    case Continue => true
    case ReturnCandidate(to) => to in s.team.roles && s.team.roles[to].binding.External?
    case OwnAction =>
      && s.turns[t].outbox.Some? && s.turns[t].outbox.value.ToRole?
      && s.turns[t].outbox.value.target in s.team.roles && s.team.roles[s.turns[t].outbox.value.target].binding.External?
  }

  // A formal action is the event it asks for, and leaves the Run as it says.
  predicate ActionDone(x: Store, action: Action, e: Event) {
    match action
    case ToComplete => e.body == Complete && ProjectedStatus(x) == CompletedRun && ProjectedOwner(x) == None
    case ToBlock => e.body == Block(Agent, None) && ProjectedStatus(x) == BlockedRun && ProjectedOwner(x) == None
    case ToRole(to) => e.body == Handoff(Selected) && ProjectedStatus(x) == RunningRun && ProjectedOwner(x) == Some(to)
  }

  // A formal event does what the role staged or the system decided, and leaves
  // the token where that says.
  predicate Enacted(x: Store, t: nat, mode: Mode, e: Event)
    requires t < |x.turns|
  {
    match mode
    case Continue =>
      e.body == Handoff(Continuation) && ProjectedStatus(x) == RunningRun && ProjectedOwner(x) == x.turns[t].rt.role
    case ReturnCandidate(to) =>
      e.body == Handoff(CandidateFailed) && ProjectedStatus(x) == RunningRun && ProjectedOwner(x) == Some(to)
    case OwnAction => x.turns[t].outbox.Some? && ActionDone(x, x.turns[t].outbox.value, e)
  }

  // Why a technical Block stands in for the action; `recovery` says when the
  // evidence needs a recovery.
  predicate StandsIn(x: Store, t: nat, mode: Mode, c: Checks, recovery: bool, e: Event)
    requires t < |x.turns| && |x.events| > 0
  {
    && e.body.Block? && (e.body.limit.Some? ==> e.body.reason.Limit?)
    && (match e.body.reason
        case Limit =>
          || (e.body.limit == Some(LimitReason.Deadline) && !BeforeDeadline(x, x.clock))
          || (e.body.limit == Some(MaxTurns) && WantsHandoff(x.turns[t], mode)
              && BusinessCount(x.turns, |x.turns|) >= x.team.maxTurns)
        case ProfileChanged => ToWorker(x, t, mode) && !(c.first && c.second && c.third)
        case Permission =>
          && x.turns[t].rt.role.Some? && x.turns[t].rt.role.value in x.team.readOnly
          && x.turns[t].rt.before != x.turns[t].rt.after
        case NoAction => mode.OwnAction? && x.turns[t].outbox.None?
        case Recovery => recovery
        case _ => false)
  }

  // Nothing stood in the way of a formal event.
  predicate Unobstructed(x: Store, t: nat, mode: Mode, c: Checks)
    requires t < |x.turns| && |x.events| > 0
  {
    && BeforeDeadline(x, x.clock)
    && (WantsHandoff(x.turns[t], mode) ==> BusinessCount(x.turns, |x.turns|) < x.team.maxTurns)
    && (ToWorker(x, t, mode) ==> c.second && c.third)
    && c.beforeReadable && x.turns[t].rt.before.Some?
    && (x.turns[t].rt.role.Some? && x.turns[t].rt.role.value in x.team.readOnly ==>
          x.turns[t].rt.before == x.turns[t].rt.after)
    && (mode.OwnAction? ==> c.payloadReadable)
    && (x.turns[t].outbox.None? ==> !c.payloadOrphaned)
  }

  // The After Facts were frozen in a file whose hash was not saved, or not at all.
  predicate UnsureFacts(turn: Turn, allowCapture: bool) {
    if turn.afterFile.Some? then turn.rt.after.None? else !allowCapture
  }

  predicate DamagedFacts(turn: Turn, c: Checks) {
    if turn.afterFile.Some? then !c.factsReadable || (turn.rt.after.Some? && turn.rt.after != turn.afterFile)
    else turn.rt.after.Some?
  }

  // What a delivery refuses before it looks at anything else.
  predicate Misdirected(s: Store, t: nat, mode: Mode)
    requires t < |s.turns|
  {
    && s.turns[t].rt.role.Some?
    && var role, box := s.turns[t].rt.role.value, s.turns[t].outbox;
    || (box.Some? && box.value.ToRole? && !s.team.AllowsHandoff(role, box.value.target))
    || (!mode.OwnAction? && box.Some?)
    || (mode.Continue? && !SessionHeld(s, t, role))
  }

  // The event that ends a Turn by a delivery from `s` to `x`: a technical Block
  // with its cause, or the formal event when there was none.
  predicate Answered(s: Store, x: Store, t: nat, mode: Mode, allowCapture: bool, c: Checks, e: Event)
    requires t < |s.turns| && t < |x.turns| && |x.events| > 0
  {
    var turn := s.turns[t];
    var recovery := Misdirected(s, t, mode) || UnsureFacts(turn, allowCapture) || (turn.outbox.None? && c.payloadOrphaned);
    if Technical(e) then StandsIn(x, t, mode, c, recovery, e)
    else
      && Enacted(x, t, mode, e) && Unobstructed(x, t, mode, c) && !recovery && !DamagedFacts(turn, c)
      && (turn.outbox.Some? ==> c.outboxReadable) && (ToWorker(x, t, mode) ==> c.first)
      && (turn.afterFile.None? ==> c.captures)
  }

  // The staged action or an artifact is damaged.
  predicate DamageFound(s: Store, t: nat, mode: Mode, c: Checks)
    requires t < |s.turns|
  {
    var box := s.turns[t].outbox;
    || (box.Some? && (!c.outboxReadable || (box.value.ToRole? && box.value.target !in s.team.roles)))
    || DamagedFacts(s.turns[t], c) || !c.beforeReadable || s.turns[t].rt.before.None?
    || (mode.OwnAction? && !c.payloadReadable)
  }

  // Only the After Facts of the Turn and the journal may have changed.
  ghost predicate DeliveryFrame(a: Store, b: Store, t: nat)
    requires t < |a.turns|
  {
    && |b.turns| == |a.turns|
    && b == a.(events := b.events, clock := b.clock, turns := b.turns)
    && b.turns == a.turns[t := a.turns[t].(rt := a.turns[t].rt.(after := b.turns[t].rt.after), afterFile := b.turns[t].afterFile)]
    && KeptOnce(a.turns[t].rt.after, b.turns[t].rt.after)
    && a.clock <= b.clock
  }

  // A decision the guard froze is always accepted, for every kind of action.
  lemma DecisionAccepted(s: Store, t: nat, body: Body, to: Option<RoleId>, at: int)
    requires Inv(s) && t < |s.turns| && s.turns[t].rt.business.Some?
    requires Decided(s, t, body.Handoff?, at)
    requires body.Handoff? || body.Complete? || (body.Block? && !body.reason.Limit? && body.limit.None?)
    requires if body.Handoff? then to.Some? && to.value in s.team.roles else to.None?
    requires body.Handoff? && body.why.Continuation? ==>
               s.turns[t].rt.role == to && s.team.roles[to.value].binding.External?
    requires body.Handoff? && body.why.CandidateFailed? && s.turns[t].rt.role.Some? && s.turns[t].rt.role.value in s.team.roles ==>
               s.turns[t].rt.role != to && s.team.roles[s.turns[t].rt.role.value] == Role(External, Fresh)
    ensures Verdict(s, NextEvent(s.events, body, s.turns[t].rt.role, to, Some(t), at)).Ok?
  {
    hide Inv, Verdict, TerminalFor, NextEvent;
    UnendedIsOpen(s, t);
    match body {
      case Handoff(why) => HandoffAccepted(s, t, why, to.value, at);
      case Complete => CompleteAccepted(s, t, at);
      case Block(reason, limit) => BlockAccepted(s, t, reason, limit, at);
    }
  }

  // What the caller checked makes the delivered event lawful.
  lemma DeliveryPolicy(s: Store, t: nat, mode: Mode, at: int)
    requires Inv(s) && t < |s.turns| && s.turns[t].rt.role.Some? && ModeReady(s, t, mode)
    requires mode.OwnAction? && s.turns[t].outbox.Some? && s.turns[t].outbox.value.ToRole? ==>
               s.team.AllowsHandoff(s.turns[t].rt.role.value, s.turns[t].outbox.value.target)
    requires s.turns[t].rt.role.value in s.team.readOnly ==>
               s.turns[t].rt.before.Some? && s.turns[t].rt.before == s.turns[t].rt.after
    ensures
      var body := BodyOf(mode, s.turns[t].outbox);
      var to := TargetOf(mode, s.turns[t].outbox, s.turns[t].rt.role);
      EventPolicy(s.team, NextEvent(s.events, body, s.turns[t].rt.role, to, Some(t), at), s.turns, s.dead)
  {
    hide Inv, FrozenFor;
  }

  lemma WorkerRole(s: Store, t: nat)
    requires Inv(s) && t < |s.turns| && s.turns[t].rt.executor.ByWorker?
    ensures s.turns[t].rt.role.Some? && s.turns[t].rt.business.Some? && s.turns[t].rt.role.value in s.team.roles
    ensures s.team.roles[s.turns[t].rt.role.value].binding.External?
    ensures s.turns[t].rt.generation.Some?
  {
    hide Inv;
    TurnNamed(s, t);
  }

  // Freeze the After Facts, or recover a frozen file whose hash was not saved.
  datatype Frozen = Frozen(recovered: bool) | Unfrozen | FactsDamaged | CaptureFailed

  method FreezeAfter(d: RunDirectory, t: nat, allowCapture: bool, c: Checks) returns (r: Frozen)
    requires d.Valid() && t < |d.turns| && d.turns[t].rt.business.Some?
    requires TerminalFor(d.events, t).None?
    modifies d
    ensures d.Valid() && old(d.history) <= d.history
    ensures DeliveryFrame(old(d.State()), d.State(), t) && d.events == old(d.events) && d.clock == old(d.clock)
    ensures r.Frozen? ==> d.turns[t].rt.after.Some? && d.turns[t].rt.after == d.turns[t].afterFile
    ensures r.FactsDamaged? <==> DamagedFacts(old(d.turns)[t], c)
    ensures r == Frozen(true) || r.Unfrozen? <==> !r.FactsDamaged? && UnsureFacts(old(d.turns)[t], allowCapture)
    ensures r.CaptureFailed? ==> !c.captures
    ensures r.Frozen? && old(d.turns)[t].afterFile.None? ==> c.captures
    ensures r.Unfrozen? || r.CaptureFailed? ==> d.State() == old(d.State())
    ensures r.Unfrozen? ==> old(d.turns)[t].afterFile.None?
  {
    hide Inv, ValidRuntime, SaveAllowedNow, TerminalFor, Open;
    var turn := d.turns[t];
    if turn.afterFile.Some? {
      if !c.factsReadable { return FactsDamaged; }
      if turn.rt.after.None? {
        UnendedIsOpen(d.State(), t);
        AfterSaveAllowed(d.State(), t, turn.afterFile.value);
        AfterKeepsValid(d.State(), t, turn.afterFile.value);
        var saved := d.SaveRuntime(t, turn.rt.(after := turn.afterFile));
        assert saved;
        return Frozen(true);
      }
      if turn.rt.after != turn.afterFile { return FactsDamaged; }
      return Frozen(false);
    }
    if turn.rt.after.Some? { return FactsDamaged; }
    if !allowCapture { return Unfrozen; }
    if !c.captures { return CaptureFailed; }
    var tree: Tree := *;
    d.Perform(PutAfter(t, tree));
    UnendedIsOpen(d.State(), t);
    AfterSaveAllowed(d.State(), t, tree);
    AfterKeepsValid(d.State(), t, tree);
    var saved := d.SaveRuntime(t, turn.rt.(after := Some(tree)));
    assert saved;
    return Frozen(false);
  }

  lemma FrameTrans(a: Store, b: Store, c: Store, t: nat)
    requires t < |a.turns| && DeliveryFrame(a, b, t) && DeliveryFrame(b, c, t)
    ensures DeliveryFrame(a, c, t)
  {
  }

  // The single event of a successful delivery, stamped with the frozen decision.
  method CommitDelivery(d: RunDirectory, t: nat, mode: Mode, at: int) returns (e: Event)
    requires d.Valid() && t < |d.turns| && d.turns[t].rt.executor.ByWorker? && ModeReady(d.State(), t, mode)
    requires Decided(d.State(), t, BodyOf(mode, d.turns[t].outbox).Handoff?, at)
    requires d.turns[t].rt.role.Some?
    requires mode.OwnAction? && d.turns[t].outbox.Some? && d.turns[t].outbox.value.ToRole? ==>
               && d.turns[t].outbox.value.target in d.team.roles
               && d.team.AllowsHandoff(d.turns[t].rt.role.value, d.turns[t].outbox.value.target)
    requires d.turns[t].rt.role.value in d.team.readOnly ==>
               d.turns[t].rt.before.Some? && d.turns[t].rt.before == d.turns[t].rt.after
    modifies d
    ensures d.Valid() && old(d.history) <= d.history
    ensures d.State() == old(d.State()).(events := old(d.events) + [e])
    ensures TerminalFor(d.events, t) == Some(e)
    ensures if mode.OwnAction? && d.turns[t].outbox.None? then e.body == Block(NoAction, None) else Enacted(d.State(), t, mode, e)
  {
    hide Inv, Verdict, TerminalFor, EventPolicy, TailId, FrozenFor;
    var body := BodyOf(mode, d.turns[t].outbox);
    var to := TargetOf(mode, d.turns[t].outbox, d.turns[t].rt.role);
    WorkerRole(d.State(), t);
    DecisionAccepted(d.State(), t, body, to, at);
    DeliveryPolicy(d.State(), t, mode, at);
    var r := d.CommitEvent(body, d.turns[t].rt.role, to, Some(t), at);
    e := r.value;
    TerminalAppended(old(d.events), t, e);
  }

  lemma JournalFrame(a: Store, b: Store, t: nat)
    requires t < |a.turns| && b == a.(events := b.events, clock := b.clock) && a.clock <= b.clock
    ensures DeliveryFrame(a, b, t)
  {
  }

  lemma TimelyBeforeDeadline(team: Team, rt: Runtime, reason: BlockReason, created: int, deadline: int)
    requires !reason.Limit?
    ensures BlockTimely(team, rt, reason, None, created, deadline) <==> created < deadline
  {
  }

  // The exact Session the exhausted role was using is durably available.
  predicate SessionHeld(s: Store, t: nat, role: RoleId)
    requires t < |s.turns|
  {
    && role in s.sessions && s.sessions[role].ref.Some?
    && s.turns[t].rt.generation == Some(s.sessions[role].generation)
    && s.turns[t].sup.Some? && s.sessions[role].ref == s.turns[t].sup.value.evidence.ref
  }

  method BlockDelivery(d: RunDirectory, t: nat, reason: BlockReason, at: int) returns (r: Delivered)
    requires d.Valid() && t < |d.turns| && d.turns[t].rt.business.Some? && Decided(d.State(), t, false, at)
    requires !reason.Agent? && !reason.Limit?
    modifies d
    ensures d.Valid() && old(d.history) <= d.history && |d.events| > 0
    ensures r.Delivered? && TerminalFor(d.events, t) == Some(r.e) && r.e.body == Block(reason, None)
    ensures d.State() == old(d.State()).(events := old(d.events) + [r.e])
  {
    hide Inv, TerminalFor, BlockTimely;
    TimelyBeforeDeadline(d.team, d.turns[t].rt, reason, at, DeadlineAt(d.State()));
    var e := BlockAt(d, t, reason, None, at);
    r := Delivered(e.value);
  }

  method RecoveryNow(d: RunDirectory, t: nat) returns (r: Delivered)
    requires d.Valid() && t < |d.turns| && d.turns[t].rt.business.Some?
    modifies d
    ensures d.Valid() && old(d.history) <= d.history && |d.events| > 0
    ensures DeliveryFrame(old(d.State()), d.State(), t)
    ensures r.Delivered? ==> TerminalFor(d.events, t) == Some(r.e)
    ensures d.turns == old(d.turns)
    ensures r.Delivered? && TerminalFor(old(d.events), t).None? ==>
              r.e.body == Block(Recovery, None) && d.events == old(d.events) + [r.e]
    ensures !r.Delivered? ==> r.Undelivered? && d.events == old(d.events) && Stamp(d.clock) >= DeadlineAt(d.State())
  {
    hide Inv, TerminalFor, BlockTimely;
    var e := BlockNow(d, t, Recovery, None);
    TimelyBeforeDeadline(d.team, d.turns[t].rt, Recovery, Stamp(d.clock), DeadlineAt(d.State()));
    r := if e.Ok? then Delivered(e.value) else Undelivered(e.why);
  }

  // ---- how a delivery concludes, once the After Facts are frozen

  // `recovery`: the frozen evidence needs a recovery.
  ghost predicate Concluded(s: Store, x: Store, t: nat, mode: Mode, recovery: bool, c: Checks, r: Delivered) {
    && t < |s.turns| && |x.events| > 0
    && x == s.(events := x.events, clock := x.clock) && s.clock <= x.clock
    && (match r
        case Delivered(e) =>
          && TerminalFor(x.events, t) == Some(e) && x.events == s.events + [e]
          && (if Technical(e) then StandsIn(x, t, mode, c, recovery, e)
              else Enacted(x, t, mode, e) && Unobstructed(x, t, mode, c) && !recovery)
        case Damaged =>
          && x.events == s.events
          && (!c.beforeReadable || s.turns[t].rt.before.None? || (mode.OwnAction? && !c.payloadReadable))
        case Undelivered(_) => x.events == s.events && Stamp(x.clock) >= DeadlineAt(x))
  }

  // Concluding later, when a guard has only looked at the clock, is concluding.
  lemma ConcludedLater(s: Store, y: Store, x: Store, t: nat, mode: Mode, recovery: bool, c: Checks, r: Delivered)
    requires y == s.(clock := y.clock) && s.clock <= y.clock && Concluded(y, x, t, mode, recovery, c, r)
    ensures Concluded(s, x, t, mode, recovery, c, r)
  {
    hide StandsIn, Enacted, Unobstructed, Technical;
  }

  // The guard stopped the delivery, or was overtaken by the deadline.
  lemma GuardConcludes(s: Store, x: Store, t: nat, mode: Mode, recovery: bool, prepared: bool, c: Checks, e: Event)
    requires t < |s.turns| && |x.events| > 0 && x == s.(events := x.events, clock := x.clock) && s.clock <= x.clock
    requires TerminalFor(x.events, t) == Some(e) && x.events == s.events + [e]
    requires Stopped(x, WantsHandoff(s.turns[t], mode), ToWorker(s, t, mode), prepared, e)
    requires !prepared ==> !(c.first && c.second && c.third)
    ensures Concluded(s, x, t, mode, recovery, c, Delivered(e))
  {
    hide TerminalFor, Enacted, Unobstructed;
    assert ToWorker(s, t, mode) == ToWorker(x, t, mode);
    hide ToWorker, WantsHandoff;
  }

  lemma BlockConcludes(s: Store, x: Store, t: nat, mode: Mode, recovery: bool, c: Checks, reason: BlockReason, e: Event)
    requires t < |s.turns| && |x.events| > 0 && x == s.(events := x.events)
    requires TerminalFor(x.events, t) == Some(e) && x.events == s.events + [e] && e.body == Block(reason, None)
    requires || (reason.Recovery? && recovery)
             || (reason.NoAction? && mode.OwnAction? && s.turns[t].outbox.None?)
             || (&& reason.Permission? && s.turns[t].rt.role.Some? && s.turns[t].rt.role.value in s.team.readOnly
                 && s.turns[t].rt.before != s.turns[t].rt.after)
    ensures Concluded(s, x, t, mode, recovery, c, Delivered(e))
  {
    hide TerminalFor, Enacted, Unobstructed;
  }

  // The last guard let the action pass and nothing was left to stop it.
  lemma ActionConcludes(s: Store, x: Store, t: nat, mode: Mode, c: Checks, at: int, e: Event)
    requires t < |s.turns| && x == s.(events := s.events + [e]) && TerminalFor(x.events, t) == Some(e)
    requires Decided(s, t, WantsHandoff(s.turns[t], mode), at) && BeforeDeadline(s, s.clock) && Enacted(x, t, mode, e)
    requires ToWorker(s, t, mode) ==> c.second && c.third
    requires c.beforeReadable && s.turns[t].rt.before.Some? && (mode.OwnAction? ==> c.payloadReadable)
    requires s.turns[t].outbox.None? ==> !c.payloadOrphaned
    requires s.turns[t].rt.role.Some? && s.turns[t].rt.role.value in s.team.readOnly ==>
               s.turns[t].rt.before == s.turns[t].rt.after
    ensures Concluded(s, x, t, mode, false, c, Delivered(e))
  {
    hide TerminalFor;
  }

  lemma TargetIs(s: Store, t: nat, mode: Mode)
    requires t < |s.turns|
    ensures WantsHandoff(s.turns[t], mode) <==> BodyOf(mode, s.turns[t].outbox).Handoff?
    ensures ToWorker(s, t, mode) ==> WantsHandoff(s.turns[t], mode)
  {
  }

  lemma ReadyLater(a: Store, b: Store, t: nat, mode: Mode)
    requires t < |a.turns| && b == a.(clock := b.clock)
    ensures ModeReady(a, t, mode) ==> ModeReady(b, t, mode)
    ensures ToWorker(a, t, mode) == ToWorker(b, t, mode)
  {
    hide FrozenFor;
  }

  // What is common to the steps of one delivery.
  ghost predicate Deliverable(s: Store, t: nat, mode: Mode) {
    && t < |s.turns| && s.turns[t].rt.executor.ByWorker? && s.turns[t].rt.role.Some? && s.turns[t].rt.business.Some?
    && ModeReady(s, t, mode)
    && (mode.OwnAction? && s.turns[t].outbox.Some? && s.turns[t].outbox.value.ToRole? ==>
          && s.turns[t].outbox.value.target in s.team.roles
          && s.team.AllowsHandoff(s.turns[t].rt.role.value, s.turns[t].outbox.value.target))
  }

  lemma DeliverableLater(a: Store, b: Store, t: nat, mode: Mode)
    requires Deliverable(a, t, mode) && b == a.(clock := b.clock)
    ensures Deliverable(b, t, mode) && ToWorker(a, t, mode) == ToWorker(b, t, mode)
  {
    ReadyLater(a, b, t, mode);
    hide ModeReady, ToWorker;
  }

  // The staged payload, the last guard, and the event.
  method CommitChecked(d: RunDirectory, t: nat, mode: Mode, c: Checks) returns (r: Delivered)
    requires d.Valid() && Deliverable(d.State(), t, mode) && TerminalFor(d.events, t).None?
    requires mode.OwnAction? ==> d.turns[t].outbox.Some?
    requires c.beforeReadable && d.turns[t].rt.before.Some? && (d.turns[t].outbox.None? ==> !c.payloadOrphaned)
    requires d.turns[t].rt.role.value in d.team.readOnly ==> d.turns[t].rt.before == d.turns[t].rt.after
    requires ToWorker(d.State(), t, mode) ==> c.second
    modifies d
    ensures d.Valid() && old(d.history) <= d.history
    ensures Concluded(old(d.State()), d.State(), t, mode, false, c, r)
  {
    hide Inv, TerminalFor, Stopped, WantsHandoff, ToWorker, ModeReady, BodyOf, TargetOf, Concluded, Enacted;
    ghost var s0 := d.State();
    TurnHasKickoff(d.State(), t);
    TargetIs(d.State(), t, mode);
    if mode.OwnAction? && !c.payloadReadable {
      DamageConcludes(s0, t, mode, false, c);
      return Damaged;
    }
    var guarded := Guard(d, t, WantsHandoff(d.turns[t], mode), ToWorker(d.State(), t, mode), c.third);
    if guarded.Err? {
      RefusalConcludes(s0, d.State(), t, mode, false, c, guarded.why);
      return Undelivered(guarded.why);
    }
    if guarded.value.Already? {
      GuardConcludes(s0, d.State(), t, mode, false, c.third, c, guarded.value.e);
      return Delivered(guarded.value.e);
    }
    ghost var y := d.State();
    DeliverableLater(s0, y, t, mode);
    var e := CommitDelivery(d, t, mode, guarded.value.at);
    ActionConcludes(y, d.State(), t, mode, c, guarded.value.at, e);
    ConcludedLater(s0, y, d.State(), t, mode, false, c, Delivered(e));
    return Delivered(e);
  }

  lemma DamageConcludes(s: Store, t: nat, mode: Mode, recovery: bool, c: Checks)
    requires t < |s.turns| && |s.events| > 0
    requires !c.beforeReadable || s.turns[t].rt.before.None? || (mode.OwnAction? && !c.payloadReadable)
    ensures Concluded(s, s, t, mode, recovery, c, Damaged)
  {
  }

  lemma RefusalConcludes(s: Store, x: Store, t: nat, mode: Mode, recovery: bool, c: Checks, why: Refusal)
    requires t < |s.turns| && |s.events| > 0 && x == s.(clock := x.clock) && s.clock <= x.clock
    requires Stamp(x.clock) >= DeadlineAt(x)
    ensures Concluded(s, x, t, mode, recovery, c, Undelivered(why))
  {
  }

  // The delivery once the After Facts are frozen.
  method DeliverFrozen(d: RunDirectory, t: nat, mode: Mode, recovered: bool, c: Checks) returns (r: Delivered)
    requires d.Valid() && Deliverable(d.State(), t, mode) && TerminalFor(d.events, t).None?
    modifies d
    ensures d.Valid() && old(d.history) <= d.history
    ensures Concluded(old(d.State()), d.State(), t, mode, recovered || (old(d.turns)[t].outbox.None? && c.payloadOrphaned), c, r)
  {
    hide Inv, TerminalFor, Stopped, WantsHandoff, ToWorker, ModeReady, Concluded;
    ghost var s0 := d.State();
    TurnHasKickoff(d.State(), t);
    TargetIs(d.State(), t, mode);
    var recovery := recovered || (d.turns[t].outbox.None? && c.payloadOrphaned);
    if !c.beforeReadable || d.turns[t].rt.before.None? {
      DamageConcludes(s0, t, mode, recovery, c);
      return Damaged;
    }
    var guarded := Guard(d, t, WantsHandoff(d.turns[t], mode), ToWorker(d.State(), t, mode), c.second);
    if guarded.Err? {
      RefusalConcludes(s0, d.State(), t, mode, recovery, c, guarded.why);
      return Undelivered(guarded.why);
    }
    if guarded.value.Already? {
      GuardConcludes(s0, d.State(), t, mode, recovery, c.second, c, guarded.value.e);
      return Delivered(guarded.value.e);
    }
    ghost var y := d.State();
    DeliverableLater(s0, y, t, mode);
    r := DeliverUnlimited(d, t, mode, recovery, c, guarded.value.at);
    ConcludedLater(s0, y, d.State(), t, mode, recovery, c, r);
  }

  // The workspace of a read-only role, the frozen evidence, and the action.
  method DeliverUnlimited(d: RunDirectory, t: nat, mode: Mode, recovery: bool, c: Checks, at: int) returns (r: Delivered)
    requires d.Valid() && Deliverable(d.State(), t, mode) && Decided(d.State(), t, false, at)
    requires c.beforeReadable && d.turns[t].rt.before.Some? && (ToWorker(d.State(), t, mode) ==> c.second)
    requires d.turns[t].outbox.None? && c.payloadOrphaned ==> recovery
    modifies d
    ensures d.Valid() && old(d.history) <= d.history
    ensures Concluded(old(d.State()), d.State(), t, mode, recovery, c, r)
  {
    hide Inv, TerminalFor, ToWorker, ModeReady, Concluded, BlockTimely;
    ghost var s0 := d.State();
    if d.turns[t].rt.role.value in d.team.readOnly && d.turns[t].rt.before != d.turns[t].rt.after {
      r := BlockDelivery(d, t, Permission, at);
      BlockConcludes(s0, d.State(), t, mode, recovery, c, Permission, r.e);
    } else if recovery {
      r := BlockDelivery(d, t, Recovery, at);
      BlockConcludes(s0, d.State(), t, mode, recovery, c, Recovery, r.e);
    } else if mode.OwnAction? && d.turns[t].outbox.None? {
      r := BlockDelivery(d, t, NoAction, at);
      BlockConcludes(s0, d.State(), t, mode, recovery, c, NoAction, r.e);
    } else {
      r := CommitChecked(d, t, mode, c);
    }
  }

  // ---- the whole delivery

  // How it concludes behind the first guard, from `s`; the After Facts may
  // have been frozen on the way.
  ghost predicate Answers(s: Store, x: Store, t: nat, mode: Mode, allowCapture: bool, c: Checks, r: Delivered) {
    && t < |s.turns| && |x.events| > 0 && DeliveryFrame(s, x, t)
    && (match r
        case Delivered(e) =>
          && TerminalFor(x.events, t) == Some(e) && x.events == s.events + [e]
          && Answered(s, x, t, mode, allowCapture, c, e)
        case Damaged => x.events == s.events && DamageFound(s, t, mode, c)
        case Undelivered(why) =>
          x.events == s.events && (Stamp(x.clock) >= DeadlineAt(x) || (why.Unavailable? && !c.captures)))
  }

  // Frozen, and concluded from there.
  lemma FrozenAnswers(s: Store, y: Store, x: Store, t: nat, mode: Mode, allowCapture: bool, c: Checks, recovered: bool, r: Delivered)
    requires t < |s.turns| && DeliveryFrame(s, y, t) && y.events == s.events && y.clock == s.clock
    requires Concluded(y, x, t, mode, recovered || (s.turns[t].outbox.None? && c.payloadOrphaned), c, r)
    requires recovered <==> UnsureFacts(s.turns[t], allowCapture)
    requires !DamagedFacts(s.turns[t], c) && (s.turns[t].afterFile.None? ==> c.captures)
    requires !Misdirected(s, t, mode) && (s.turns[t].outbox.Some? ==> c.outboxReadable) && (ToWorker(s, t, mode) ==> c.first)
    ensures Answers(s, x, t, mode, allowCapture, c, r)
  {
    hide TerminalFor, StandsIn, Enacted, Unobstructed, Misdirected, DamagedFacts, UnsureFacts;
    SameTarget(s, x, t, mode);
  }

  lemma SameTarget(a: Store, b: Store, t: nat, mode: Mode)
    requires t < |a.turns| && DeliveryFrame(a, b, t)
    ensures ToWorker(a, t, mode) == ToWorker(b, t, mode)
  {
  }

  // Unsure facts that may not be captured: the guard, then a recovery.
  lemma UnfrozenAnswers(s: Store, x: Store, t: nat, mode: Mode, allowCapture: bool, c: Checks, r: Delivered)
    requires Concluded(s, x, t, mode, true, c, r) && r != Damaged && (r.Delivered? ==> Technical(r.e))
    requires UnsureFacts(s.turns[t], allowCapture)
    ensures Answers(s, x, t, mode, allowCapture, c, r)
  {
    hide TerminalFor, Enacted, Unobstructed, Misdirected, DamagedFacts, UnsureFacts;
    JournalFrame(s, x, t);
    hide DeliveryFrame;
    if r.Delivered? { StandsWithMore(x, t, mode, c, true, true, r.e); }
  }

  // More causes for a recovery leave the reason a reason.
  lemma StandsWithMore(x: Store, t: nat, mode: Mode, c: Checks, some: bool, more: bool, e: Event)
    requires t < |x.turns| && |x.events| > 0 && StandsIn(x, t, mode, c, some, e) && (some ==> more)
    ensures StandsIn(x, t, mode, c, more, e)
  {
  }

  lemma DeliverableFrozen(a: Store, b: Store, t: nat, mode: Mode)
    requires Deliverable(a, t, mode) && DeliveryFrame(a, b, t)
    ensures Deliverable(b, t, mode)
  {
    hide FrozenFor;
    SameFrozen(a, b, t);
  }

  lemma SameFrozen(a: Store, b: Store, t: nat)
    requires t < |a.turns| && DeliveryFrame(a, b, t)
    ensures forall why :: FrozenFor(a.turns[t], why, a.dead) ==> FrozenFor(b.turns[t], why, b.dead)
  {
  }

  // The delivery after the first guard has passed.
  method DeliverGuarded(d: RunDirectory, t: nat, mode: Mode, allowCapture: bool, c: Checks) returns (r: Delivered)
    requires d.Valid() && Deliverable(d.State(), t, mode) && TerminalFor(d.events, t).None?
    requires !Misdirected(d.State(), t, mode) && (d.turns[t].outbox.Some? ==> c.outboxReadable)
    requires ToWorker(d.State(), t, mode) ==> c.first
    modifies d
    ensures d.Valid() && old(d.history) <= d.history
    ensures Answers(old(d.State()), d.State(), t, mode, allowCapture, c, r)
  {
    hide Inv, TerminalFor, Concluded, Answers, UnsureFacts, DamagedFacts, Misdirected, ToWorker, ModeReady;
    TurnHasKickoff(d.State(), t);
    ghost var s0 := d.State();
    var frozen := FreezeAfter(d, t, allowCapture, c);
    match frozen {
      case FactsDamaged =>
        DamagedAnswers(s0, d.State(), t, mode, allowCapture, c);
        return Damaged;
      case CaptureFailed =>
        UncapturedAnswers(s0, t, mode, allowCapture, c);
        return Undelivered(Unavailable);
      case Unfrozen =>
        r := DeliverUnfrozen(d, t, mode, c);
        UnfrozenAnswers(s0, d.State(), t, mode, allowCapture, c, r);
      case Frozen(recovered) =>
        ghost var s1 := d.State();
        DeliverableFrozen(s0, s1, t, mode);
        r := DeliverFrozen(d, t, mode, recovered, c);
        FrozenAnswers(s0, s1, d.State(), t, mode, allowCapture, c, recovered, r);
    }
  }

  method DeliverUnfrozen(d: RunDirectory, t: nat, mode: Mode, c: Checks) returns (r: Delivered)
    requires d.Valid() && Deliverable(d.State(), t, mode) && TerminalFor(d.events, t).None?
    modifies d
    ensures d.Valid() && old(d.history) <= d.history
    ensures Concluded(old(d.State()), d.State(), t, mode, true, c, r) && r != Damaged && (r.Delivered? ==> Technical(r.e))
  {
    hide Inv, TerminalFor, Concluded, Stopped, ToWorker, ModeReady, WantsHandoff, BlockTimely;
    TurnHasKickoff(d.State(), t);
    ghost var s0 := d.State();
    var late := Guard(d, t, WantsHandoff(d.turns[t], mode), ToWorker(d.State(), t, mode), c.second);
    if late.Err? {
      RefusalConcludes(s0, d.State(), t, mode, true, c, late.why);
      return Undelivered(late.why);
    }
    if late.value.Already? {
      GuardConcludes(s0, d.State(), t, mode, true, c.second, c, late.value.e);
      StoppedByGuard(d.State(), WantsHandoff(s0.turns[t], mode), ToWorker(s0, t, mode), c.second, late.value.e);
      return Delivered(late.value.e);
    }
    ghost var y := d.State();
    r := BlockDelivery(d, t, Recovery, late.value.at);
    BlockConcludes(y, d.State(), t, mode, true, c, Recovery, r.e);
    ConcludedLater(s0, y, d.State(), t, mode, true, c, r);
  }

  lemma DamagedAnswers(s: Store, x: Store, t: nat, mode: Mode, allowCapture: bool, c: Checks)
    requires t < |s.turns| && |x.events| > 0 && DeliveryFrame(s, x, t) && x.events == s.events && DamagedFacts(s.turns[t], c)
    ensures Answers(s, x, t, mode, allowCapture, c, Damaged)
  {
    hide DeliveryFrame;
  }

  lemma UncapturedAnswers(s: Store, t: nat, mode: Mode, allowCapture: bool, c: Checks)
    requires t < |s.turns| && |s.events| > 0 && !c.captures
    ensures Answers(s, s, t, mode, allowCapture, c, Undelivered(Unavailable))
  {
  }

  // deliver_outbox_locked
  method Deliver(d: RunDirectory, t: nat, mode: Mode, allowCapture: bool, c: Checks) returns (r: Delivered)
    requires d.Valid() && t < |d.turns| && d.turns[t].rt.executor.ByWorker? && ModeReady(d.State(), t, mode)
    modifies d
    ensures d.Valid() && old(d.history) <= d.history && |d.events| > 0
    ensures DeliveryFrame(old(d.State()), d.State(), t)
    ensures r.Delivered? ==> TerminalFor(d.events, t) == Some(r.e)
    ensures r.Delivered? && TerminalFor(old(d.events), t).None? ==>
              && Answered(old(d.State()), d.State(), t, mode, allowCapture, c, r.e)
              && d.events == old(d.events) + [r.e]
    ensures r.Damaged? ==> DamageFound(old(d.State()), t, mode, c)
    ensures !r.Delivered? ==> d.events == old(d.events)
    ensures r.Undelivered? ==> Stamp(d.clock) >= DeadlineAt(d.State()) || (r.why.Unavailable? && !c.captures)
  {
    hide Inv, TerminalFor, BlockTimely, SessionHeld, ModeReady, StandsIn, Enacted, Unobstructed, UnsureFacts, DamagedFacts;
    WorkerRole(d.State(), t);
    TurnHasKickoff(d.State(), t);
    ghost var s0 := d.State();
    var role := d.turns[t].rt.role.value;
    var outbox := d.turns[t].outbox;
    if outbox.Some? && !c.outboxReadable { return Damaged; }
    if outbox.Some? && outbox.value.ToRole? && outbox.value.target !in d.team.roles { return Damaged; }
    if || (outbox.Some? && outbox.value.ToRole? && !d.team.AllowsHandoff(role, outbox.value.target))
       || (!mode.OwnAction? && outbox.Some?)
       || (mode.Continue? && !SessionHeld(d.State(), t, role))
    {
      r := RecoveryNow(d, t);
      if r.Delivered? && TerminalFor(s0.events, t).None? { RecoveryStands(d.State(), t, mode, c, r.e); }
      return;
    }
    r := DeliverDirected(d, t, mode, allowCapture, c);
  }

  lemma RecoveryStands(x: Store, t: nat, mode: Mode, c: Checks, e: Event)
    requires t < |x.turns| && |x.events| > 0 && e.body == Block(Recovery, None)
    ensures Technical(e) && StandsIn(x, t, mode, c, true, e)
  {
  }

  // The delivery of an action that is readable and goes where it may.
  method DeliverDirected(d: RunDirectory, t: nat, mode: Mode, allowCapture: bool, c: Checks) returns (r: Delivered)
    requires d.Valid() && Deliverable(d.State(), t, mode)
    requires !Misdirected(d.State(), t, mode) && (d.turns[t].outbox.Some? ==> c.outboxReadable)
    modifies d
    ensures d.Valid() && old(d.history) <= d.history
    ensures TerminalFor(old(d.events), t).None? ==> Answers(old(d.State()), d.State(), t, mode, allowCapture, c, r)
    ensures TerminalFor(old(d.events), t).Some? ==>
              r == Delivered(TerminalFor(old(d.events), t).value) && d.State() == old(d.State())
  {
    hide Inv, TerminalFor, Answers, Stopped, WantsHandoff, ToWorker, ModeReady, Misdirected;
    TurnHasKickoff(d.State(), t);
    ghost var s0 := d.State();
    var guarded := Guard(d, t, WantsHandoff(d.turns[t], mode), ToWorker(d.State(), t, mode), c.first);
    TargetIs(s0, t, mode);
    if guarded.Err? {
      LateAnswers(s0, d.State(), t, mode, allowCapture, c, guarded.why);
      return Undelivered(guarded.why);
    }
    if guarded.value.Already? {
      if TerminalFor(s0.events, t).None? {
        StoppedAnswers(s0, d.State(), t, mode, allowCapture, c, guarded.value.e);
      }
      return Delivered(guarded.value.e);
    }
    ghost var y := d.State();
    DeliverableLater(s0, y, t, mode);
    DirectedLater(s0, y, t, mode);
    r := DeliverGuarded(d, t, mode, allowCapture, c);
    AnswersLater(s0, y, d.State(), t, mode, allowCapture, c, r);
  }

  lemma LateAnswers(s: Store, x: Store, t: nat, mode: Mode, allowCapture: bool, c: Checks, why: Refusal)
    requires t < |s.turns| && |s.events| > 0 && x == s.(clock := x.clock) && s.clock <= x.clock
    requires Stamp(x.clock) >= DeadlineAt(x)
    ensures Answers(s, x, t, mode, allowCapture, c, Undelivered(why))
  {
  }

  lemma StoppedAnswers(s: Store, x: Store, t: nat, mode: Mode, allowCapture: bool, c: Checks, e: Event)
    requires t < |s.turns| && |x.events| > 0 && x == s.(events := x.events, clock := x.clock) && s.clock <= x.clock
    requires TerminalFor(x.events, t) == Some(e) && x.events == s.events + [e]
    requires Stopped(x, WantsHandoff(s.turns[t], mode), ToWorker(s, t, mode), c.first, e)
    ensures Answers(s, x, t, mode, allowCapture, c, Delivered(e))
  {
    hide TerminalFor, Enacted, Unobstructed, Misdirected, UnsureFacts, DamagedFacts;
    JournalFrame(s, x, t);
    assert ToWorker(s, t, mode) == ToWorker(x, t, mode);
    hide ToWorker, WantsHandoff, DeliveryFrame;
  }

  lemma DirectedLater(a: Store, b: Store, t: nat, mode: Mode)
    requires t < |a.turns| && b == a.(clock := b.clock)
    ensures Misdirected(a, t, mode) <==> Misdirected(b, t, mode)
  {
  }

  lemma AnswersLater(s: Store, y: Store, x: Store, t: nat, mode: Mode, allowCapture: bool, c: Checks, r: Delivered)
    requires t < |s.turns| && y == s.(clock := y.clock) && s.clock <= y.clock && Answers(y, x, t, mode, allowCapture, c, r)
    ensures Answers(s, x, t, mode, allowCapture, c, r)
  {
    hide TerminalFor, Enacted, Unobstructed, UnsureFacts, DamagedFacts, StandsIn, ToWorker;
    DirectedLater(s, y, t, mode);
    hide Misdirected;
  }
}
