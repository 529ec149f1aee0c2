/**
 The Run directory as an object. Its fields are the durable files, and the
 processes the operating system runs for it; `history` records the state after
 every durable write, so whatever holds of each element of `history` holds of
 each state a crash can leave behind.

 A method that takes the Run lock starts from any such state: it requires no
 more than `Valid()`.
 */
module Directory {
  import opened Model
  import opened Options
  import opened Journal
  import opened Turns
  import opened Replay
  import opened Invariant
  import opened Machine
  import opened Endings
  import opened Guards
  import Scan
  import Safety
  import L = Later

  ghost predicate Step(a: Store, b: Store) {
    exists w :: Permitted(a, w) && b == Apply(a, w)
  }

  // A run of the Run directory up to now, one durable write after the other.
  ghost predicate Steps(team: Team, history: seq<Store>) {
    && history != []
    && (exists now :: history[0] == Safety.Initial(team, now))
    && (forall i | 0 < i < |history| :: Step(history[i - 1], history[i]))
  }

  // A process and the writes that only it performs: one live Worker per role
  // claims for that role, and only a started Supervisor and its Runner write
  // the process files of a Turn.
  datatype Actor = AsAnyone | AsWorker(role: RoleId, turn: nat, spawned: bool) | AsSupervisor(watched: nat)

  predicate Foreign(me: Actor, w: Write) {
    match me
    case AsAnyone => true
    case AsWorker(role, t, spawned) =>
      && !(w.Claim? && w.rt.role == Some(role))
      && (!spawned ==> !((w.PutSupervisor? || w.PutRunner?) && w.t == t))
    case AsSupervisor(t) => !(w.PutSupervisor? && w.t == t)
  }

  // What therefore stays as this process left it.
  ghost predicate Undisturbed(me: Actor, a: Store, b: Store) {
    match me
    case AsAnyone => true
    case AsWorker(role, t, spawned) =>
      && |a.turns| <= |b.turns|
      && (forall u | |a.turns| <= u < |b.turns| :: b.turns[u].rt.role != Some(role))
      && (!spawned && t < |a.turns| ==> b.turns[t].sup == a.turns[t].sup && b.turns[t].runnerFile == a.turns[t].runnerFile)
    case AsSupervisor(t) => |a.turns| <= |b.turns| && (t < |a.turns| ==> b.turns[t].sup == a.turns[t].sup)
  }

  lemma AloneSelf(me: Actor, s: Store)
    ensures Undisturbed(me, s, s)
  {
  }

  lemma AloneTrans(me: Actor, a: Store, b: Store, w: Write)
    requires Undisturbed(me, a, b) && Permitted(b, w) && Foreign(me, w)
    ensures Undisturbed(me, a, Apply(b, w))
  {
    hide CommitAllowed, ClaimAllowed, SessionAllowed, GateOpens, SupervisorAllowed, AuthorizationAllowed, Linked, EndedBy, ValidRuntime, Continuous;
  }

  class RunDirectory {
    const team: Team
    var events: seq<Event>
    var turns: seq<Turn>
    var sessions: map<RoleId, Session>
    var clock: int
    var dead: set<Pid>
    var passed: set<(nat, Pid)>
    ghost var history: seq<Store>

    function State(): Store
      reads this
    {
      Store(team, events, turns, sessions, clock, dead, passed)
    }

    ghost predicate Valid()
      reads this
    {
      Inv(State()) && Steps(team, history) && history[|history| - 1] == State()
    }

    constructor (team: Team, now: int)
      requires team.Valid()
      ensures Valid() && State() == Safety.Initial(team, now)
    {
      this.team := team;
      events, turns, sessions, clock := [], [], map[], now;
      dead, passed := {}, {};
      history := [Safety.Initial(team, now)];
      new;
      Safety.InitialInv(team, now);
    }

    // One durable write.
    method Perform(w: Write)
      requires Valid() && Permitted(State(), w)
      modifies this
      ensures Valid() && State() == Apply(old(State()), w)
      ensures history == old(history) + [State()]
    {
      hide Inv, Permitted;
      ghost var before := State();
      Safety.WriteKeepsInv(before, w);
      match w {
        case Commit(e) => events := events + [e];
        case Claim(rt) => turns := turns + [Turn(rt, None, None, None, None, None)];
        case Save(t, rt) => if t < |turns| { turns := turns[t := turns[t].(rt := rt)]; }
        case PutSupervisor(t, snap) => if t < |turns| { turns := turns[t := turns[t].(sup := Some(snap))]; }
        case PutRunner(t, pid) => if t < |turns| { turns := turns[t := turns[t].(runnerFile := Some(pid))]; }
        case PutAuthorization(t, auth) => if t < |turns| { turns := turns[t := turns[t].(auth := Some(auth))]; }
        case PutAfter(t, tree) => if t < |turns| { turns := turns[t := turns[t].(afterFile := Some(tree))]; }
        case PutOutbox(t, action) => if t < |turns| { turns := turns[t := turns[t].(outbox := Some(action))]; }
        case PutSession(t, session) =>
          if t < |turns| && turns[t].rt.role.Some? { sessions := sessions[turns[t].rt.role.value := session]; }
        case PassGate(t, pid) => passed := passed + {(t, pid)};
        case Tick(now) => clock := now;
        case Die(pid) => dead := dead + {pid};
      }
      assert State() == Apply(before, w);
      history := history + [State()];
      assert Step(before, State());
    }

    // The files, without the clock and the operating system.
    ghost function Files(): (seq<Event>, seq<Turn>, map<RoleId, Session>)
      reads this
    {
      (events, turns, sessions)
    }

    // ---- the environment

    method Now() returns (now: int)
      requires Valid()
      modifies this
      ensures Valid() && old(history) <= history
      ensures State() == old(State()).(clock := now) && old(clock) <= now
    {
      hide Inv;
      var elapsed: int := *;
      now := if elapsed < 0 then clock else clock + elapsed;
      Perform(Tick(now));
    }

    // A process (group) reported gone is gone for good; any other answer says nothing.
    method Gone(pid: Pid) returns (gone: bool)
      requires Valid()
      modifies this
      ensures Valid() && old(history) <= history
      ensures State() == old(State()).(dead := if gone then old(dead) + {pid} else old(dead))
    {
      hide Inv;
      gone := *;
      if gone { Perform(Die(pid)); }
    }

    // Whatever the other processes do while this one does not hold the Run lock.
    method Interfere(me: Actor)
      requires Valid()
      modifies this
      ensures Valid() && old(history) <= history
      ensures L.Later(old(State()), State())
      ensures Undisturbed(me, old(State()), State())
    {
      hide Inv, Permitted, Apply, L.Later, Undisturbed;
      ghost var before := State();
      L.LaterSelf(before);
      AloneSelf(me, before);
      var steps: nat := *;
      while steps > 0
        invariant Valid() && old(history) <= history
        invariant L.Later(before, State()) && Undisturbed(me, before, State())
      {
        var w: Write := *;
        if Permitted(State(), w) && Foreign(me, w) {
          ghost var between := State();
          Perform(w);
          L.WriteIsLater(between, w);
          L.LaterTrans(before, between, State());
          AloneTrans(me, before, between, w);
        }
        steps := steps - 1;
      }
    }

    // ---- the journal

    // scan_journal: the loops of the replay, event by event.
    method ScanJournal() returns (r: Result<(Status, Option<RoleId>)>)
      ensures r == Scan.ScanVerdict(State())
    {
      hide ValidateTransition;
      var k := 0;
      var chained := true;
      while k < |events|
        invariant 0 <= k <= |events|
        invariant chained <==> Chained(events[..k])
      {
        ChainedStep(events, k);
        if events[k].id != EventId(events[k].body.Kind(), k + 1) || events[k].prev != TailId(events, k) {
          chained := false;
        }
        k := k + 1;
      }
      assert events[..k] == events;
      if !chained { return Err(BrokenChain); }
      if |events| > 0 && !events[0].body.Kickoff? { return Err(BadKickoff); }
      if !TurnsValid(team, turns) { return Err(BadRuntime); }
      if !Scan.Contiguous(turns) { return Err(BadTurns); }
      if !Scan.DistinctInputs(turns) { return Err(ManyClaims); }
      var cursor := Fresh0;
      var prior: set<EventId> := {};
      k := 0;
      while k < |events|
        invariant 0 <= k <= |events|
        invariant prior == PriorIds(events, k)
        invariant ReplayJournal(team, events, turns, k) == Ok(cursor)
      {
        var e := events[k];
        match ValidateTransition(team, e, cursor, CountIn(turns, prior, |turns|), turns) {
          case Err(why) =>
            ReplayStops(team, events, turns, k, why);
            return Err(why);
          case Ok((status, owner)) =>
            cursor := Advance(cursor, e, status, owner);
        }
        prior := prior + {e.id};
        k := k + 1;
      }
      if !AllLinked(events, turns) { return Err(BadLink); }
      if exists role | role in sessions :: !Scan.SessionLineage(team, turns, role, sessions[role]) { return Err(BadSession); }
      return Ok((cursor.status, cursor.owner));
    }

    // commit_event: the validator decides against the projection of a fresh scan.
    method CommitEvent(body: Body, from: Option<RoleId>, to: Option<RoleId>, turn: Option<nat>, created: int)
      returns (r: Result<Event>)
      requires Valid() && created <= Stamp(clock)
      requires EventPolicy(team, NextEvent(events, body, from, to, turn, created), turns, dead)
      requires RouteHeld(State(), NextEvent(events, body, from, to, turn, created))
      modifies this
      ensures Valid() && old(history) <= history
      ensures r.Ok? <==> Verdict(old(State()), NextEvent(old(events), body, from, to, turn, created)).Ok?
      ensures r.Ok? ==> r.value == NextEvent(old(events), body, from, to, turn, created)
                        && State() == Apply(old(State()), Commit(r.value))
      ensures r.Err? ==> State() == old(State())
    {
      hide Inv, ValidateTransition, CommitAllowed, EventPolicy, RouteHeld;
      Scan.InvScans(State());
      var scan := ScanJournal();
      assert scan.Ok?;
      var e := NextEvent(events, body, from, to, turn, created);
      var kickoff := if events == [] then None else Some(events[0]);
      var tail := if events == [] then None else Some(events[|events| - 1]);
      var terminals := set j | 0 <= j < |events| && EndsTurn(events[j]) :: events[j].turn.value;
      var cursor := Cursor(scan.value.0, scan.value.1, tail, kickoff, terminals);
      assert cursor == CursorAt(events, |events|);
      match ValidateTransition(team, e, cursor, BusinessCount(turns, |turns|), turns) {
        case Err(why) => r := Err(why);
        case Ok(_) =>
          VerdictAllows(State(), body, from, to, turn, created);
          Perform(Commit(e));
          r := Ok(e);
      }
    }

    // commit_technical_block_locked: an event that already ended the Turn wins.
    method CommitTechnicalBlock(t: nat, reason: BlockReason, limit: Option<LimitReason>, created: int)
      returns (r: Result<Event>)
      requires Valid() && t < |turns| && !reason.Agent? && created <= Stamp(clock)
      modifies this
      ensures Valid() && old(history) <= history
      ensures sessions == old(sessions) && turns == old(turns) && clock == old(clock) && dead == old(dead) && passed == old(passed)
      ensures TerminalFor(old(events), t).Some? ==> r == Ok(TerminalFor(old(events), t).value)
      ensures r.Ok? ==> TerminalFor(events, t) == Some(r.value)
      ensures r.Err? || TerminalFor(old(events), t).Some? ==> State() == old(State())
      ensures TerminalFor(old(events), t).None? ==>
                var e := NextEvent(old(events), Block(reason, limit), turns[t].rt.role, None, Some(t), created);
                && (r.Ok? <==> Verdict(old(State()), e).Ok?)
                && (r.Ok? ==> r.value == e && events == old(events) + [e])
    {
      hide Inv, ValidateTransition, TailId;
      Scan.InvScans(State());
      var scan := ScanJournal();
      assert scan.Ok?;
      var existing := TerminalFor(events, t);
      if existing.Some? { return Ok(existing.value); }
      BlockPolicy(State(), t, reason, limit, created);
      ghost var before := events;
      r := CommitEvent(Block(reason, limit), turns[t].rt.role, None, Some(t), created);
      if r.Ok? { TerminalAppended(before, t, r.value); }
    }

    // save_runtime: the Runtime is validated, compared with the stored one and
    // replaced. What it does not compare is the Runtime with the journal: that
    // part of `SaveAllowedNow` is up to the caller.
    method SaveRuntime(t: nat, rt: Runtime) returns (saved: bool)
      requires Valid() && t < |turns|
      modifies this
      ensures saved <==> ValidRuntime(team, rt) && SaveAllowed(old(turns)[t].rt, rt)
      ensures State() == if saved then Apply(old(State()), Save(t, rt)) else old(State())
      ensures old(history) <= history
      ensures !saved || SaveAllowedNow(old(State()), t, rt) ==> Valid()
    {
      hide Inv, ValidRuntime, SaveAllowed, SaveAllowedNow;
      ghost var before := State();
      saved := ValidRuntime(team, rt) && SaveAllowed(turns[t].rt, rt);
      if !saved { return; }
      turns := turns[t := turns[t].(rt := rt)];
      history := history + [State()];
      assert State() == Apply(before, Save(t, rt));
      if SaveAllowedNow(before, t, rt) {
        Safety.WriteKeepsInv(before, Save(t, rt));
        assert Permitted(before, Save(t, rt));
        assert Step(before, State());
      }
    }
  }

  lemma BlockPolicy(s: Store, t: nat, reason: BlockReason, limit: Option<LimitReason>, created: int)
    requires t < |s.turns| && !reason.Agent?
    ensures EventPolicy(s.team, NextEvent(s.events, Block(reason, limit), s.turns[t].rt.role, None, Some(t), created), s.turns, s.dead)
  {
  }

  lemma {:induction false} TerminalPrefix(events: seq<Event>, t: nat, e: Event, k: nat)
    requires k <= |events| && TerminalFrom(events, t, k).None?
    ensures TerminalFrom(events + [e], t, k) == (if e.turn == Some(t) && !e.body.Kickoff? then Some(e) else None)
    decreases |events| - k
  {
    if k < |events| {
      assert (events + [e])[k] == events[k];
      TerminalPrefix(events, t, e, k + 1);
    } else {
      assert TerminalFrom(events + [e], t, k + 1).None?;
    }
  }

  lemma TerminalAppended(events: seq<Event>, t: nat, e: Event)
    requires TerminalFor(events, t).None? && e.turn == Some(t) && !e.body.Kickoff?
    ensures TerminalFor(events + [e], t) == Some(e)
  {
    TerminalPrefix(events, t, e, 0);
  }

  // Along a run every earlier state is still visible in every later one.
  lemma {:induction false} HistoryLater(team: Team, history: seq<Store>, i: nat, j: nat)
    requires Steps(team, history) && i <= j < |history|
    ensures L.Later(history[i], history[j])
    decreases j
  {
    hide L.Later, Permitted, Apply;
    if i == j {
      L.LaterSelf(history[i]);
    } else {
      HistoryLater(team, history, i, j - 1);
      assert Step(history[j - 1], history[j]);
      var w :| Permitted(history[j - 1], w) && history[j] == Apply(history[j - 1], w);
      L.WriteIsLater(history[j - 1], w);
      L.LaterTrans(history[i], history[j - 1], history[j]);
    }
  }

  // Every state a Run directory went through is reachable in the machine.
  lemma {:induction false} HistoryReachable(team: Team, history: seq<Store>, i: nat)
    requires Steps(team, history) && i < |history|
    ensures exists now :: Safety.Reachable(team, now, history[i])
  {
    hide Permitted, Apply;
    if i == 0 {
      var now :| history[0] == Safety.Initial(team, now);
      Safety.ReachesInitial(team, now);
    } else {
      HistoryReachable(team, history, i - 1);
      var now :| Safety.Reachable(team, now, history[i - 1]);
      assert Step(history[i - 1], history[i]);
      var w :| Permitted(history[i - 1], w) && history[i] == Apply(history[i - 1], w);
      Safety.ReachesOneMore(team, now, history[i - 1], w);
    }
  }

  lemma SinceThen(d: RunDirectory, before: seq<Store>)
    requires d.Valid() && Steps(d.team, before) && before <= d.history
    ensures L.Later(before[|before| - 1], d.State())
  {
    hide Inv, L.Later, Step;
    HistoryLater(d.team, d.history, |before| - 1, |d.history| - 1);
  }

  lemma ChainedStep(events: seq<Event>, k: nat)
    requires k < |events|
    ensures Chained(events[..k + 1]) <==>
              Chained(events[..k]) && events[k].id == EventId(events[k].body.Kind(), k + 1) && events[k].prev == TailId(events, k)
  {
    hide Chained;
    LinksSplit(events[..k], events[k]);
    assert events[..k + 1] == events[..k] + [events[k]];
    assert TailId(events[..k], k) == TailId(events, k);
  }

  lemma LinksSplit(events: seq<Event>, e: Event)
    ensures Chained(events + [e]) <==>
              Chained(events) && e.id == EventId(e.body.Kind(), |events| + 1) && e.prev == TailId(events, |events|)
  {
    var all := events + [e];
    assert all[|events|] == e;
    forall k | 0 <= k <= |events| ensures TailId(all, k) == TailId(events, k) {
      assert k > 0 ==> all[k - 1] == events[k - 1];
    }
    if Chained(all) {
      assert all[|events|].prev == TailId(all, |events|);
      forall k | 0 <= k < |events| ensures events[k].prev == TailId(events, k) && events[k].id == EventId(events[k].body.Kind(), k + 1) {
        assert all[k] == events[k] && all[k].prev == TailId(all, k);
      }
    }
    if Chained(events) && e.id == EventId(e.body.Kind(), |events| + 1) && e.prev == TailId(events, |events|) {
      ChainGrows(events, e);
    }
  }

  // The first refused event decides the verdict of the whole replay.
  lemma {:induction false} ReplayStopsBy(team: Team, events: seq<Event>, turns: seq<Turn>, k: nat, n: nat, why: Refusal)
    requires k < n <= |events|
    requires ReplayJournal(team, events, turns, k + 1) == Err(why)
    ensures ReplayJournal(team, events, turns, n) == Err(why)
    decreases n
  {
    hide ValidateTransition;
    if n > k + 1 { ReplayStopsBy(team, events, turns, k, n - 1, why); }
  }

  lemma ReplayStops(team: Team, events: seq<Event>, turns: seq<Turn>, k: nat, why: Refusal)
    requires k < |events|
    requires ReplayJournal(team, events, turns, k + 1) == Err(why)
    ensures ReplayJournal(team, events, turns, |events|) == Err(why)
  {
    ReplayStopsBy(team, events, turns, k, |events|, why);
  }
}
