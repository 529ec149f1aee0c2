/**
 Replaying the journal: `ReplayJournal` folds the validator over the events exactly as
 a scan does; `Accepted` says the same thing one event at a time, which is the
 form the preservation proofs use.
 */
module Replay {
  import opened Model
  import opened Options
  import opened Journal
  import opened Turns

  function PriorIds(events: seq<Event>, k: nat): set<EventId>
    requires k <= |events|
  {
    set j | 0 <= j < k :: events[j].id
  }

  // Business Turns among the first n whose input is one of the given events.
  function CountIn(turns: seq<Turn>, prior: set<EventId>, n: nat): nat
    requires n <= |turns|
  {
    if n == 0 then 0
    else
      var rt := turns[n - 1].rt;
      CountIn(turns, prior, n - 1) + (if rt.business.Some? && rt.input in prior then 1 else 0)
  }

  function BusinessCount(turns: seq<Turn>, n: nat): nat
    requires n <= |turns|
  {
    if n == 0 then 0 else BusinessCount(turns, n - 1) + (if turns[n - 1].rt.business.Some? then 1 else 0)
  }

  // Business Turns claimed before event k was committed.
  function CountBefore(events: seq<Event>, turns: seq<Turn>, k: nat): nat
    requires k <= |events|
  {
    CountIn(turns, PriorIds(events, k), |turns|)
  }

  predicate EndsTurn(e: Event) {
    e.turn.Some? && (e.body.Handoff? || e.body.Complete? || e.body.Block? || e.body.Cancel?)
  }

  function Advance(c: Cursor, e: Event, status: Status, owner: Option<RoleId>): Cursor {
    Cursor(status, owner, Some(e),
           if e.body.Kickoff? then Some(e) else c.kickoff,
           if EndsTurn(e) then c.terminals + {e.turn.value} else c.terminals)
  }

  function ReplayJournal(team: Team, events: seq<Event>, turns: seq<Turn>, k: nat): Result<Cursor>
    requires k <= |events|
  {
    if k == 0 then Ok(Fresh0)
    else match ReplayJournal(team, events, turns, k - 1)
      case Err(why) => Err(why)
      case Ok(c) =>
        match ValidateTransition(team, events[k - 1], c, CountBefore(events, turns, k - 1), turns)
        case Err(why) => Err(why)
        case Ok((status, owner)) => Ok(Advance(c, events[k - 1], status, owner))
  }

  // Where an accepted event leaves the Run depends on that event alone.
  function StatusAfter(e: Event): Status {
    match e.body
    case Complete => CompletedRun
    case Block(_, _) => BlockedRun
    case Cancel => CancelledRun
    case _ => RunningRun
  }

  function OwnerAfter(e: Event): Option<RoleId> {
    if StatusAfter(e).RunningRun? then e.to else None
  }

  function TerminalsIn(events: seq<Event>, k: nat): set<nat>
    requires k <= |events|
  {
    set j | 0 <= j < k && EndsTurn(events[j]) :: events[j].turn.value
  }

  function CursorAt(events: seq<Event>, k: nat): Cursor
    requires k <= |events|
  {
    if k == 0 then Fresh0
    else
      var e := events[k - 1];
      Cursor(StatusAfter(e), OwnerAfter(e), Some(e), Some(events[0]), TerminalsIn(events, k))
  }

  predicate StepAccepted(team: Team, events: seq<Event>, turns: seq<Turn>, k: nat)
    requires k < |events|
  {
    && (k == 0 <==> events[k].body.Kickoff?)
    && ValidateTransition(team, events[k], CursorAt(events, k), CountBefore(events, turns, k), turns).Ok?
  }

  predicate Accepted(team: Team, events: seq<Event>, turns: seq<Turn>) {
    forall k | 0 <= k < |events| :: StepAccepted(team, events, turns, k)
  }

  // An accepted transition always lands in the state the event announces.
  lemma ValidatedState(team: Team, e: Event, c: Cursor, n: nat, turns: seq<Turn>)
    requires ValidateTransition(team, e, c, n, turns).Ok?
    ensures ValidateTransition(team, e, c, n, turns).value == (StatusAfter(e), OwnerAfter(e))
  {
  }

  lemma FirstIsKickoff(team: Team, e: Event, n: nat, turns: seq<Turn>)
    requires ValidateTransition(team, e, Fresh0, n, turns).Ok?
    ensures e.body.Kickoff?
  {
  }

  lemma LaterIsNotKickoff(team: Team, e: Event, c: Cursor, n: nat, turns: seq<Turn>)
    requires ValidateTransition(team, e, c, n, turns).Ok? && c.previous.Some?
    ensures !e.body.Kickoff?
  {
  }

  lemma CursorStep(events: seq<Event>, k: nat)
    requires k < |events| && (k == 0 <==> events[k].body.Kickoff?)
    ensures CursorAt(events, k + 1)
         == Advance(CursorAt(events, k), events[k], StatusAfter(events[k]), OwnerAfter(events[k]))
  {
    var e := events[k];
    assert TerminalsIn(events, k + 1) == TerminalsIn(events, k) + (if EndsTurn(e) then {e.turn.value} else {});
    assert k == 0 ==> TerminalsIn(events, k) == {};
  }

  lemma {:induction false} ReplayPointwise(team: Team, events: seq<Event>, turns: seq<Turn>, k: nat)
    requires k <= |events|
    ensures ReplayJournal(team, events, turns, k).Ok? <==> forall j | 0 <= j < k :: StepAccepted(team, events, turns, j)
    ensures ReplayJournal(team, events, turns, k).Ok? ==> ReplayJournal(team, events, turns, k).value == CursorAt(events, k)
  {
    hide ValidateTransition;
    if k > 0 {
      ReplayPointwise(team, events, turns, k - 1);
      if ReplayJournal(team, events, turns, k - 1).Ok? {
        var c := CursorAt(events, k - 1);
        var e := events[k - 1];
        var n := CountBefore(events, turns, k - 1);
        if ValidateTransition(team, e, c, n, turns).Ok? {
          ValidatedState(team, e, c, n, turns);
          if k == 1 { FirstIsKickoff(team, e, n, turns); } else { LaterIsNotKickoff(team, e, c, n, turns); }
          CursorStep(events, k - 1);
        }
        assert StepAccepted(team, events, turns, k - 1) <==> ValidateTransition(team, e, c, n, turns).Ok?;
      }
    }
  }

  // The scan's whole-journal verdict, in one-event-at-a-time form.
  lemma ReplayAccepts(team: Team, events: seq<Event>, turns: seq<Turn>)
    ensures ReplayJournal(team, events, turns, |events|).Ok? <==> Accepted(team, events, turns)
    ensures Accepted(team, events, turns) ==>
              ReplayJournal(team, events, turns, |events|).value == CursorAt(events, |events|)
  {
    ReplayPointwise(team, events, turns, |events|);
  }
}
