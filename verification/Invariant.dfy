/** What every reachable journal and list of Turns satisfies. */
module Invariant {
  import opened Model
  import opened Options
  import opened Journal
  import opened Turns
  import opened Replay

  // The id the next event after the first k must chain to.
  function TailId(events: seq<Event>, k: nat): Option<EventId>
    requires k <= |events|
  {
    if k == 0 then None else Some(events[k - 1].id)
  }

  // File names, ids and the prev_event_id chain.
  predicate Chained(events: seq<Event>) {
    && (forall k | 0 <= k < |events| :: events[k].id == EventId(events[k].body.Kind(), k + 1))
    && (forall k {:trigger events[k].prev} | 0 <= k < |events| :: events[k].prev == TailId(events, k))
  }

  predicate TurnsValid(team: Team, turns: seq<Turn>) {
    forall t | 0 <= t < |turns| :: turns[t].rt.turn == t && ValidRuntime(team, turns[t].rt)
  }

  predicate InputsRise(turns: seq<Turn>) {
    forall i, j | 0 <= i < j < |turns| :: turns[i].rt.input.n < turns[j].rt.input.n
  }

  predicate EarlierClosed(turns: seq<Turn>) {
    forall t | 0 <= t < |turns| - 1 :: turns[t].rt.phase.Finalized?
  }

  predicate Numbered(turns: seq<Turn>) {
    forall t | 0 <= t < |turns| ::
      turns[t].rt.business.Some? ==> turns[t].rt.business.value == BusinessCount(turns, t) + 1
  }

  // The scan's check of one Runtime against the events it names.
  predicate InputFits(rt: Runtime, input: Event) {
    if rt.business.None? then rt.executor.ByOrigin? && rt.role.None? && input.body.Block?
    else StatusAfter(input).RunningRun? && input.to == rt.role
  }

  predicate TerminalFits(rt: Runtime, terminal: Event) {
    && terminal.turn == Some(rt.turn)
    && (if rt.business.None? then terminal.body.Resume? || terminal.body.Cancel?
        else !terminal.body.Kickoff? && !terminal.body.Resume?)
    && rt.outcome == Some(OutcomeOf(terminal.body))
  }

  predicate Linked(events: seq<Event>, rt: Runtime) {
    && (1 <= rt.input.n <= |events| && events[rt.input.n - 1].id == rt.input && InputFits(rt, events[rt.input.n - 1]))
    && (rt.terminal.Some? ==>
          && 1 <= rt.terminal.value.n <= |events|
          && events[rt.terminal.value.n - 1].id == rt.terminal.value
          && TerminalFits(rt, events[rt.terminal.value.n - 1]))
  }

  predicate AllLinked(events: seq<Event>, turns: seq<Turn>) {
    forall t | 0 <= t < |turns| :: Linked(events, turns[t].rt)
  }

  predicate JournalInv(team: Team, events: seq<Event>, turns: seq<Turn>) {
    && Chained(events)
    && TurnsValid(team, turns)
    && AllLinked(events, turns)
    && InputsRise(turns)
    && EarlierClosed(turns)
    && Numbered(turns)
    && Accepted(team, events, turns)
  }

  // ---- what one accepted event tells about its neighbours

  predicate StepFacts(events: seq<Event>, turns: seq<Turn>, k: nat)
    requires 0 < k < |events|
  {
    var e := events[k];
    var p := events[k - 1];
    && (e.turn.Some? ==> e.turn.value < |turns| && turns[e.turn.value].rt.input == p.id)
    && (e.turn.None? ==> e.body.Cancel?)
    && (e.body.Resume? ==> p.body.Block? && turns[e.turn.value].rt.business.None?)
    && (e.body.Handoff? || e.body.Complete? || e.body.Block? ==>
          StatusAfter(p).RunningRun? && turns[e.turn.value].rt.role == p.to && e.from == p.to && p.to.Some?)
    && (e.body.Cancel? ==>
          && (StatusAfter(p).RunningRun? || StatusAfter(p).BlockedRun?)
          && Claims(turns, p.id) == OptionSet(e.turn))
    && (StatusAfter(e).RunningRun? ==> e.to.Some?)
    && p.created <= e.created
  }

  lemma StepTells(team: Team, events: seq<Event>, turns: seq<Turn>, k: nat)
    requires 0 < k < |events| && StepAccepted(team, events, turns, k)
    ensures StepFacts(events, turns, k)
  {
  }
}
