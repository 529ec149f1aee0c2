/** Merging what an adapter reports about a running Harness, and the snapshots its Supervisor saves. */
module EvidenceMerge {
  import opened Model
  import opened Options
  import opened Turns
  import opened Machine

  // What one record of output tells; an empty ref tells nothing.
  datatype Report = Report(started: bool, completed: bool, permission: bool, ref: Option<Ref>, unavailable: Option<string>)

  // What is known so far. Only the evidence is saved in a snapshot.
  datatype Known = Known(evidence: Evidence, unavailable: Option<string>)
  const NOTHING := Known(NoEvidence, None)

  predicate Sound(e: Evidence) { e.completed ==> e.started && !e.permission }

  predicate Consistent(k: Known) {
    && Sound(k.evidence) && k.evidence.ref != Some("")
    && (k.unavailable.Some? ==>
          !k.evidence.started && !k.evidence.completed && !k.evidence.permission && k.unavailable != Some(""))
  }

  // Can this report follow what is already known?
  predicate Acceptable(k: Known, e: Report) {
    var known := k.evidence;
    if e.unavailable.Some? then
      && e.unavailable != Some("") && !e.started && !e.completed && !e.permission && e.ref.None?
      && !known.started && !known.completed && !known.permission
      && (k.unavailable.Some? ==> k.unavailable == e.unavailable)
    else if k.unavailable.Some? then !e.started && !e.completed && !e.permission
    else
      && (e.ref.Some? && e.ref != Some("") && known.ref.Some? ==> known.ref == e.ref)
      && (known.completed || e.completed ==> (known.started || e.started) && !(known.permission || e.permission))
  }

  // What is known after a report. A refused one may leave its flags behind.
  function Heard(k: Known, e: Report): Known {
    var known := k.evidence;
    if e.unavailable.Some? then (if Acceptable(k, e) then k.(unavailable := e.unavailable) else k)
    else if k.unavailable.Some? then k
    else
      k.(evidence := Evidence(known.started || e.started, known.completed || e.completed, known.permission || e.permission,
                              if known.ref.Some? || e.ref == Some("") then known.ref else e.ref))
  }

  // No report takes anything back, and an accepted one keeps what is known
  // consistent, even if a refused one had spoiled it before.
  lemma HeardGrows(k: Known, e: Report)
    ensures EvidenceGrows(k.evidence, Heard(k, e).evidence)
    ensures Acceptable(k, e) ==> KeptOnce(k.unavailable, Heard(k, e).unavailable)
    ensures Acceptable(k, e) && Consistent(k) ==> Consistent(Heard(k, e))
    ensures Acceptable(k, e) && Heard(k, e) != k ==> Sound(Heard(k, e).evidence)
  {
  }

  class EvidenceSnapshot {
    var started: bool
    var completed: bool
    var permission: bool
    var ref: Option<Ref>
    var unavailable: Option<string>

    function Value(): Known
      reads this
    {
      Known(Evidence(started, completed, permission, ref), unavailable)
    }

    constructor ()
      ensures Value() == NOTHING
    {
      started, completed, permission, ref, unavailable := false, false, false, None, None;
    }

    // merge: fields are assigned before the last checks.
    method Merge(e: Report) returns (r: Result<bool>)
      modifies this
      ensures r.Ok? <==> Acceptable(old(Value()), e)
      ensures Value() == Heard(old(Value()), e)
      ensures r.Ok? ==> (r.value <==> Value() != old(Value()))
      ensures EvidenceGrows(old(Value()).evidence, Value().evidence)
      ensures r.Ok? && Consistent(old(Value())) ==> Consistent(Value())
    {
      HeardGrows(Value(), e);
      var before := Value();
      if e.unavailable.Some? {
        if e.unavailable == Some("") || e.started || e.completed || e.permission || e.ref.Some? { return Err(BadRuntime); }
        if started || completed { return Err(BadRuntime); }
        if permission { return Err(BadRuntime); }
        if unavailable.Some? && unavailable != e.unavailable { return Err(BadRuntime); }
        unavailable := e.unavailable;
      } else if unavailable.Some? {
        if e.started || e.completed || e.permission { return Err(BadRuntime); }
        return Ok(false);
      }
      started := started || e.started;
      completed := completed || e.completed;
      permission := permission || e.permission;
      if e.ref.Some? && e.ref != Some("") {
        if ref.Some? && ref != e.ref { return Err(BadRuntime); }
        ref := e.ref;
      }
      if completed && !started { return Err(BadRuntime); }
      if completed && permission { return Err(BadRuntime); }
      return Ok(before != Value());
    }
  }

  // ---- the snapshots of a headless Supervisor, from waiting to the last one

  // _save_snapshot takes the second snapshot over the first.
  predicate CanSave(before: Snapshot, after: Snapshot) {
    ValidSnapshot(after) && SnapshotAllowed(before, after)
  }

  // record and merge_evidence: execution evidence turns waiting into running.
  function Absorbed(sn: Snapshot, evidence: Evidence): Snapshot {
    sn.(evidence := evidence, state := if evidence.started && sn.state.SupWaiting? then SupRunning else sn.state)
  }

  function Stopping(sn: Snapshot): Snapshot { sn.(state := SupStopping) }

  function Final(sn: Snapshot, evidence: Evidence, code: int, kind: Termination, quiescent: bool): Snapshot {
    sn.(evidence := evidence, state := if quiescent then SupFinished else SupStopping,
        exitCode := Some(code), kind := Some(kind), quiescent := quiescent)
  }

  // What the Supervisor holds in memory: what it knows and what it saved last.
  datatype Memory = Memory(known: Known, sn: Snapshot)

  datatype Act = Hear(report: Report) | Stop

  function Next(m: Memory, act: Act): Memory {
    match act
    case Stop => m.(sn := Stopping(m.sn))
    case Hear(e) =>
      var known := Heard(m.known, e);
      Memory(known, if Acceptable(m.known, e) && known != m.known then Absorbed(m.sn, known.evidence) else m.sn)
  }

  // The memory after the first n actions of a life.
  function After(m: Memory, acts: seq<Act>, n: nat): Memory
    requires n <= |acts|
  {
    if n == 0 then m else Next(After(m, acts, n - 1), acts[n - 1])
  }

  // A life begins when the Runner has announced itself.
  predicate Begins(m: Memory) {
    m.known == NOTHING && ValidSnapshot(m.sn) && m.sn.state.SupWaiting? && m.sn.evidence == NoEvidence
  }

  predicate Ongoing(m: Memory) {
    && ValidSnapshot(m.sn) && m.sn.runner.Some? && m.sn.exitCode.None? && m.sn.kind.None?
    && (m.sn.state.SupWaiting? || m.sn.state.SupRunning? || m.sn.state.SupStopping?)
    && EvidenceGrows(m.sn.evidence, m.known.evidence)
  }

  lemma NextSaves(m: Memory, act: Act)
    requires Ongoing(m)
    ensures Ongoing(Next(m, act)) && CanSave(m.sn, Next(m, act).sn)
  {
    if act.Hear? { HeardGrows(m.known, act.report); }
  }

  lemma {:induction false} LifeGoesOn(m: Memory, acts: seq<Act>, n: nat)
    requires Begins(m) && n <= |acts|
    ensures Ongoing(After(m, acts, n))
  {
    if n > 0 {
      LifeGoesOn(m, acts, n - 1);
      NextSaves(After(m, acts, n - 1), acts[n - 1]);
    }
  }

  predicate AllAccepted(m: Memory, acts: seq<Act>, n: nat)
    requires n <= |acts|
  {
    forall i | 0 <= i < n :: acts[i].Hear? ==> Acceptable(After(m, acts, i).known, acts[i].report)
  }

  lemma {:induction false} AcceptedStaysConsistent(m: Memory, acts: seq<Act>, n: nat)
    requires Begins(m) && n <= |acts| && AllAccepted(m, acts, n)
    ensures Consistent(After(m, acts, n).known) && After(m, acts, n).sn.evidence == After(m, acts, n).known.evidence
  {
    if n > 0 {
      AcceptedStaysConsistent(m, acts, n - 1);
      if acts[n - 1].Hear? { HeardGrows(After(m, acts, n - 1).known, acts[n - 1].report); }
    }
  }

  // Whatever is reported and whenever it is told to stop, a Supervisor's saves
  // pass the schema and the comparison with the one before. The last one
  // passes if and only if no refused report has left a completion without a
  // start or beside a permission request; it always does when every report was
  // accepted.
  lemma EverySavePasses(m: Memory, acts: seq<Act>, code: int, kind: Termination, quiescent: bool)
    requires Begins(m)
    ensures forall n | 0 <= n < |acts| :: CanSave(After(m, acts, n).sn, After(m, acts, n + 1).sn)
    ensures
      var last := After(m, acts, |acts|);
      && (CanSave(last.sn, Final(last.sn, last.known.evidence, code, kind, quiescent)) <==> Sound(last.known.evidence))
      && (AllAccepted(m, acts, |acts|) ==> Sound(last.known.evidence))
  {
    forall n | 0 <= n < |acts| ensures CanSave(After(m, acts, n).sn, After(m, acts, n + 1).sn) {
      LifeGoesOn(m, acts, n);
      NextSaves(After(m, acts, n), acts[n]);
    }
    LifeGoesOn(m, acts, |acts|);
    LastSavePasses(After(m, acts, |acts|), code, kind, quiescent);
    if AllAccepted(m, acts, |acts|) { AcceptedStaysConsistent(m, acts, |acts|); }
  }

  lemma LastSavePasses(m: Memory, code: int, kind: Termination, quiescent: bool)
    requires Ongoing(m)
    ensures CanSave(m.sn, Final(m.sn, m.known.evidence, code, kind, quiescent)) <==> Sound(m.known.evidence)
  {
  }

  // The last save can be lost: a completion reported without a start is
  // refused, but its flag stays.
  lemma RefusedReportLosesTheEnd(m: Memory)
    requires Begins(m)
    ensures
      var acts := [Hear(Report(false, true, false, None, None))];
      !AllAccepted(m, acts, 1) && !Sound(After(m, acts, 1).known.evidence)
  {
    var acts := [Hear(Report(false, true, false, None, None))];
    assert After(m, acts, 0) == m && After(m, acts, 1) == Next(m, acts[0]);
    assert !Acceptable(After(m, acts, 0).known, acts[0].report);
  }
}
