/**
 finalize_turn_trace: a receipt, the trace, the retained output, the manifest.
 A crash may follow any durable write; a later call completes the same work.
 */
module TraceFinalizer {
  import opened Lines
  import opened Options
  import opened Capture
  import opened Playback
  import opened Refinement
  import opened Trace

  // The capture summary of the manifest, beyond the capture file itself.
  datatype Totals = Totals(records: nat, observed: nat, stored: nat, omitted: nat, truncated: bool,
                           traceRedactions: nat, streamRedactions: nat)

  // A manifest names the exact contents of what it anchors. `others` stands for
  // the artifacts finalization never touches.
  datatype Manifest = Manifest(
    policy: Policy, capture: CaptureFile, totals: Totals, summary: seq<TraceEvent>,
    trace: seq<TraceEvent>, stream: Option<seq<Line>>, stderr: Option<Bytes>, others: nat)

  datatype Preparation = Preparation(stream: seq<Line>, stderr: Bytes, manifest: Manifest)

  datatype Files = Files(
    capture: Option<CaptureFile>, stream: Option<seq<Line>>, stderr: Option<Bytes>,
    trace: Option<seq<TraceEvent>>, receipt: Option<Preparation>, manifest: Option<Manifest>, others: nat)

  // ---- the validator

  predicate CaptureAgrees(c: CaptureFile, lines: seq<Line>)
    requires Readable(lines)
  {
    AllRaw(lines) ==> CaptureMatches(c, Envelopes(lines))
  }

  // _validate_manifest_trace_and_capture
  predicate TotalsHold(f: Files, m: Manifest) {
    && f.trace.Some? && f.capture.Some?
    && m.summary == f.trace.value
    && ConsistentCapture(m.capture) && f.capture.value == m.capture
    && m.totals.stored == |f.trace.value|
    && m.totals.observed == m.totals.stored + m.totals.omitted
    && m.totals.truncated == (m.totals.omitted != 0)
    && m.capture.stored <= m.policy.limit
  }

  // _validate_artifact_files
  predicate ArtifactsHold(f: Files, m: Manifest) {
    f.trace == Some(m.trace) && f.stream == m.stream && f.stderr == m.stderr && f.others == m.others
  }

  // _validate_retention_state
  predicate RetentionHolds(f: Files, m: Manifest) {
    if m.policy.retention.Delete? then
      m.stream.None? && m.stderr.None? && f.stream.None? && f.stderr.None?
    else
      && m.stream.Some? && m.stderr.Some? && f.stream.Some? && f.stderr.Some? && f.trace.Some?
      && Readable(f.stream.value)
      && (f.stream.value != [] && m.policy.retention.Keep? ==> AllRaw(f.stream.value))
      && (f.stream.value != [] && m.policy.retention.Redacted? ==> AllArchived(f.stream.value))
      && CaptureAgrees(m.capture, f.stream.value)
      && f.stderr.value == StderrOf(Records(f.stream.value))
      && m.totals.records == |Records(f.stream.value)|
      && forall e | e in f.trace.value :: Referenced(e, Records(f.stream.value))
  }

  predicate Accepted(f: Files, m: Manifest, policy: Policy) {
    m.policy == policy && ArtifactsHold(f, m) && TotalsHold(f, m) && RetentionHolds(f, m)
  }

  // ---- what a closed capture contains

  // What _prepare_trace_finalization demands of the files it reads.
  predicate Preparable(f: Files, policy: Policy) {
    && f.capture.Some? && f.stream.Some? && f.stderr.Some?
    && ConsistentCapture(f.capture.value) && f.capture.value.stored <= policy.limit
    && Readable(f.stream.value) && AllRaw(f.stream.value)
    && CaptureMatches(f.capture.value, Envelopes(f.stream.value))
    && f.stderr.value == StderrOf(Records(f.stream.value))
  }

  // The directory as the Supervisor left it: nothing finalized yet, and every
  // stored chunk holds at least one byte.
  predicate Captured(f: Files, policy: Policy) {
    && Preparable(f, policy)
    && f.trace.None? && f.receipt.None? && f.manifest.None?
    && forall i | 0 <= i < |f.stream.value| :: f.stream.value[i].e.chunk.data != []
  }

  // ---- the planned result

  function Events(tools: Tools, o: Files): seq<TraceEvent>
    requires o.stream.Some? && Readable(o.stream.value)
  {
    Normalized(tools, Records(o.stream.value))
  }

  function KeptEvents(tools: Tools, o: Files, policy: Policy): seq<TraceEvent>
    requires o.stream.Some? && Readable(o.stream.value)
  {
    Events(tools, o)[..Fitting(tools, Events(tools, o), policy.limit, |Events(tools, o)|)]
  }

  function RetainedStream(tools: Tools, o: Files, policy: Policy): Option<seq<Line>>
    requires o.stream.Some? && Readable(o.stream.value)
  {
    match policy.retention
    case Keep => o.stream
    case Redacted => Some(Archive(tools, Records(o.stream.value)))
    case Delete => None
  }

  function RetainedStderr(tools: Tools, o: Files, policy: Policy): Option<Bytes>
    requires o.stream.Some? && Readable(o.stream.value)
  {
    match policy.retention
    case Keep => o.stderr
    case Redacted => Some(StderrOf(Scrubbed(tools, Records(o.stream.value))))
    case Delete => None
  }

  function Scrubs(tools: Tools, events: seq<TraceEvent>): nat {
    if events == [] then 0 else Scrubs(tools, events[..|events| - 1]) + tools.scrubs(events[|events| - 1])
  }

  function PlannedTotals(tools: Tools, o: Files, policy: Policy): Totals
    requires o.stream.Some? && Readable(o.stream.value)
  {
    var kept, all := |KeptEvents(tools, o, policy)|, |Events(tools, o)|;
    Totals(|Records(o.stream.value)|, all, kept, all - kept, all != kept, Scrubs(tools, Events(tools, o)),
           if policy.retention.Redacted? then Hits(tools, Records(o.stream.value)) else 0)
  }

  function Prepared(tools: Tools, o: Files, policy: Policy): Preparation
    requires Preparable(o, policy)
  {
    Preparation(o.stream.value, o.stderr.value,
      Manifest(policy, o.capture.value, PlannedTotals(tools, o, policy),
               KeptEvents(tools, o, policy), KeptEvents(tools, o, policy),
               RetainedStream(tools, o, policy), RetainedStderr(tools, o, policy), o.others))
  }

  // The directory after the first k durable changes of an uninterrupted run.
  function Stage(tools: Tools, o: Files, policy: Policy, k: nat): Files
    requires Captured(o, policy)
  {
    var p := Prepared(tools, o, policy);
    var f1 := if k >= 1 then o.(receipt := Some(p)) else o;
    var f2 := if k >= 2 then f1.(trace := Some(p.manifest.trace)) else f1;
    var f3 := if k >= 3 then f2.(stream := p.manifest.stream) else f2;
    var f4 := if k >= 4 then f3.(stderr := p.manifest.stderr) else f3;
    var f5 := if k >= 5 then f4.(manifest := Some(p.manifest)) else f4;
    if k >= 6 then f5.(receipt := None) else f5
  }

  const LAST: nat := 6

  // The raw output is untouched until the receipt and the trace are durable.
  lemma RawOutputIsSafe(tools: Tools, o: Files, policy: Policy, k: nat)
    requires Captured(o, policy)
    ensures
      var f := Stage(tools, o, policy, k);
      (f.stream != o.stream || f.stderr != o.stderr) ==>
        f.trace == Some(Prepared(tools, o, policy).manifest.trace)
        && (f.receipt == Some(Prepared(tools, o, policy)) || f.manifest == Some(Prepared(tools, o, policy).manifest))
  {
  }

  // ---- the finished directory passes its own validator

  lemma KeptAreReferenced(tools: Tools, o: Files, policy: Policy)
    requires o.stream.Some? && Readable(o.stream.value)
    ensures forall e | e in KeptEvents(tools, o, policy) :: Referenced(e, Records(o.stream.value))
  {
    EventsHaveRecords(tools, Records(o.stream.value));
  }

  lemma RecordsOrdered(lines: seq<Line>)
    requires Readable(lines)
    ensures Ordered(Records(lines))
  {
    if AllRaw(lines) {
      var chunks := Chunks(Envelopes(lines));
      SortOrders(Played(chunks, |chunks|) + Tail(chunks, Stdout) + Tail(chunks, Stderr));
    } else {
      SortOrders(ArchivedRecords(lines));
    }
  }

  lemma RetainedIsValid(tools: Tools, o: Files, policy: Policy, k: nat)
    requires Captured(o, policy) && k >= 4
    ensures RetentionHolds(Stage(tools, o, policy, k), Prepared(tools, o, policy).manifest)
  {
    hide Records, StderrOf, Scrubbed, Ordered, CaptureMatches;
    KeptAreReferenced(tools, o, policy);
    var records := Records(o.stream.value);
    RecordsOrdered(o.stream.value);
    if policy.retention.Redacted? {
      RecordsWellReferenced(o.stream.value);
      ArchiveReadsBack(tools, records);
      ArchiveAgrees(tools, o, policy);
    }
  }

  // An archive is only unreadable as raw chunks when it is not empty, and it is
  // empty only for an empty stream.
  lemma ArchiveAgrees(tools: Tools, o: Files, policy: Policy)
    requires Captured(o, policy)
    ensures
      var lines := Archive(tools, Records(o.stream.value));
      Readable(lines) && CaptureAgrees(o.capture.value, lines)
  {
    hide Records, StderrOf;
    var lines := Archive(tools, Records(o.stream.value));
    RecordsWellReferenced(o.stream.value);
    RecordsOrdered(o.stream.value);
    ArchiveReadsBack(tools, Records(o.stream.value));
    if o.stream.value != [] {
      RecordsExist(o.stream.value);
      assert lines[0].ArchivedLine?;
    } else {
      EmptyStream();
      assert Envelopes(lines) == Envelopes(o.stream.value);
    }
  }

  lemma RecordsExist(lines: seq<Line>)
    requires AllRaw(lines) && Readable(lines) && lines != []
    requires forall i | 0 <= i < |lines| :: lines[i].e.chunk.data != []
    ensures Records(lines) != []
  {
    hide PlayedBack, Complete, Pending;
    var chunks := Chunks(Envelopes(lines));
    var n := |chunks|;
    var s := chunks[n - 1].source;
    NothingIsLost(chunks, s);
    assert Joined(chunks, s, n) != [];
    assert Concat(DataOf(Select([], Of(s)))) == [];
  }

  lemma FinalIsAccepted(tools: Tools, o: Files, policy: Policy, k: nat)
    requires Captured(o, policy) && k >= 4
    ensures Accepted(Stage(tools, o, policy, k), Prepared(tools, o, policy).manifest, policy)
  {
    hide Records, RetentionHolds;
    RetainedIsValid(tools, o, policy, k);
  }

  // ---- the finalizer

  datatype Outcome = Finished(manifest: Manifest) | Crashed | Failed

  class TurnTrace {
    const tools: Tools
    const policy: Policy
    var files: Files
    ghost var original: Files
    ghost var stage: nat

    // Every crash leaves one of the stages of the uninterrupted run.
    ghost predicate Valid()
      reads this
    {
      Captured(original, policy) && stage <= LAST && files == Stage(tools, original, policy, stage)
    }

    constructor (tools: Tools, policy: Policy, captured: Files)
      requires Captured(captured, policy)
      ensures Valid() && files == original == captured && stage == 0 && this.tools == tools && this.policy == policy
    {
      this.tools, this.policy, files, original, stage := tools, policy, captured, captured, 0;
    }

    // _prepare_trace_finalization
    method Prepare() returns (r: Option<Preparation>)
      ensures r.Some? <==> Preparable(files, policy)
      ensures r.Some? ==> r.value == Prepared(tools, files, policy)
    {
      hide Records, StderrOf, Normalized, Scrubbed, Archive, Hits, Scrubs, Readable, CaptureMatches;
      if !Preparable(files, policy) { return None; }
      var records := Records(files.stream.value);
      var events := Normalized(tools, records);
      var kept, truncated, omitted := SerializeTrace(tools, events, policy.limit);
      var stream, stderr, count := files.stream, files.stderr, 0;
      match policy.retention {
        case Keep =>
        case Delete => stream, stderr := None, None;
        case Redacted =>
          var lines, archived, hits := RedactStream(tools, records);
          stream, stderr, count := Some(lines), Some(archived), hits;
      }
      var totals := Totals(|records|, |events|, kept, omitted, truncated, Scrubs(tools, events), count);
      return Some(Preparation(files.stream.value, files.stderr.value,
        Manifest(policy, files.capture.value, totals, events[..kept], events[..kept], stream, stderr, files.others)));
    }

    // _remove_trace_preparation
    method RemoveReceipt(m: Manifest, left: nat) returns (r: Outcome)
      requires Valid() && stage >= 5 && m == Prepared(tools, original, policy).manifest
      modifies this`files, this`stage
      ensures Valid() && stage >= old(stage) && !r.Failed?
      ensures r.Finished? ==> stage == LAST && r.manifest == m
      ensures left >= 1 ==> r.Finished?
    {
      hide Prepared, Captured;
      if files.receipt.Some? {
        if left == 0 { return Crashed; }
        files := files.(receipt := None);
        stage := LAST;
      }
      return Finished(m);
    }

    // The trace, then the retained output: replaced, deleted or left alone.
    method ApplyRetention(p: Preparation, rebuilt: bool, budget: nat) returns (r: Outcome, left: nat)
      requires Valid() && 2 <= stage <= 4 && p == Prepared(tools, original, policy)
      requires !rebuilt ==> stage >= 3 && !policy.retention.Keep?
      modifies this`files, this`stage
      ensures Valid() && stage >= old(stage) && !r.Failed? && stage <= 4
      ensures r.Finished? ==> r.manifest == p.manifest && stage == 4 && left + 2 >= budget
      ensures budget >= 2 ==> r.Finished?
    {
      hide Prepared, Captured, Readable, Records, StderrOf;
      left := budget;
      match policy.retention {
        case Keep =>
          KeepChangesNothing(tools, original, policy);
          stage := 4;
        case Delete =>
          DeletePlan(tools, original, policy);
          if files.stream.Some? {
            if left == 0 { return Crashed, left; }
            left := left - 1;
            files := files.(stream := None);
            stage := 3;
          }
          if files.stderr.Some? {
            if left == 0 { return Crashed, left; }
            left := left - 1;
            files := files.(stderr := None);
          }
          stage := 4;
        case Redacted =>
          RedactedPlan(tools, original, policy);
          if rebuilt {
            if left == 0 { return Crashed, left; }
            left := left - 1;
            files := files.(stream := p.manifest.stream);
            stage := if stage < 3 then 3 else stage;
          } else if files.stream != p.manifest.stream {
            return Failed, left;
          }
          var stderr := if rebuilt then p.manifest.stderr else Some(StderrOf(Records(files.stream.value)));
          if stderr != p.manifest.stderr { return Failed, left; }
          if left == 0 { return Crashed, left; }
          left := left - 1;
          files := files.(stderr := stderr);
          stage := 4;
      }
      return Finished(p.manifest), left;
    }

    // _apply_trace_preparation and what follows it
    method Apply(p: Preparation, rebuilt: bool, budget: nat) returns (r: Outcome)
      requires Valid() && 1 <= stage <= 4 && p == Prepared(tools, original, policy)
      requires !rebuilt ==> stage >= 3 && !policy.retention.Keep?
      modifies this`files, this`stage
      ensures Valid() && stage >= old(stage) && !r.Failed?
      ensures r.Finished? ==> stage == LAST && r.manifest == p.manifest
      ensures budget >= 5 ==> r.Finished?
    {
      hide Prepared, Captured, TotalsHold, Accepted;
      CapturedIsNew(original, policy);
      var left := budget;
      if rebuilt && files.trace.None? {
        if left == 0 { return Crashed; }
        left := left - 1;
        files := files.(trace := Some(p.manifest.trace));
        stage := 2;
      } else if files.trace != Some(p.manifest.trace) {
        return Failed;
      }
      TotalsAreRight(tools, original, policy, stage);
      if !TotalsHold(files, p.manifest) { return Failed; }
      r, left := ApplyRetention(p, rebuilt, left);
      if !r.Finished? { return; }
      FinalIsAccepted(tools, original, policy, stage);
      if !Accepted(files, p.manifest, policy) { return Failed; }
      if left == 0 { return Crashed; }
      left := left - 1;
      files := files.(manifest := Some(p.manifest));
      stage := 5;
      r := RemoveReceipt(p.manifest, left);
    }

    // finalize_turn_trace, with room for a limited number of durable changes.
    method FinalizeTurnTrace(budget: nat) returns (r: Outcome)
      requires Valid()
      modifies this`files, this`stage
      ensures Valid() && stage >= old(stage)
      ensures !r.Failed?
      ensures r.Finished? ==> stage == LAST && r.manifest == Prepared(tools, original, policy).manifest
      ensures budget >= LAST ==> r.Finished?
    {
      hide Preparable, Prepared;
      CapturedIsNew(original, policy);
      if files.manifest.Some? {
        FinalIsAccepted(tools, original, policy, stage);
        if !Accepted(files, files.manifest.value, policy) { return Failed; }
        r := RemoveReceipt(files.manifest.value, budget);
        return;
      }
      var left := budget;
      var rebuilt := true;
      var p: Preparation;
      if files.receipt.Some? {
        p := files.receipt.value;
        PlanPolicy(tools, original, policy);
        StageReadable(tools, original, policy, stage);
        if p.manifest.policy != policy { return Failed; }
        if files.stream.Some? {
          var lines := files.stream.value;
          if !Readable(lines) { return Failed; }
          if lines == [] || AllRaw(lines) {
            RawIsOriginal(tools, original, policy, stage);
            var again := Prepare();
            if again != Some(p) { return Failed; }
          } else {
            if !policy.retention.Redacted? { return Failed; }
            rebuilt := false;
          }
        } else {
          if !policy.retention.Delete? { return Failed; }
          rebuilt := false;
        }
      } else {
        assert stage == 0 && files == original;
        var first := Prepare();
        if first.None? { return Failed; }
        p := first.value;
        if left == 0 { return Crashed; }
        left := left - 1;
        files := files.(receipt := Some(p));
        stage := 1;
      }
      r := Apply(p, rebuilt, left);
    }
  }

  lemma PlanPolicy(tools: Tools, o: Files, policy: Policy)
    requires Preparable(o, policy)
    ensures Prepared(tools, o, policy).manifest.policy == policy
  {
  }

  lemma StageReadable(tools: Tools, o: Files, policy: Policy, k: nat)
    requires Captured(o, policy)
    ensures Stage(tools, o, policy, k).stream.Some? ==> Readable(Stage(tools, o, policy, k).stream.value)
    ensures Stage(tools, o, policy, k).stream.None? ==> k >= 3 && policy.retention.Delete?
    ensures Stage(tools, o, policy, k).stream.Some? && !AllRaw(Stage(tools, o, policy, k).stream.value) ==>
              k >= 3 && policy.retention.Redacted?
  {
    hide Records, StderrOf, Scrubbed, Ordered;
    RecordsOrdered(o.stream.value);
    RecordsWellReferenced(o.stream.value);
    ArchiveReadsBack(tools, Records(o.stream.value));
  }

  lemma KeepChangesNothing(tools: Tools, o: Files, policy: Policy)
    requires Captured(o, policy) && policy.retention.Keep?
    ensures Stage(tools, o, policy, 2) == Stage(tools, o, policy, 3) == Stage(tools, o, policy, 4)
  {
  }

  lemma DeletePlan(tools: Tools, o: Files, policy: Policy)
    requires Captured(o, policy) && policy.retention.Delete?
    ensures Prepared(tools, o, policy).manifest.stream.None? && Prepared(tools, o, policy).manifest.stderr.None?
    ensures o.stream.Some? && o.stderr.Some?
  {
  }

  lemma RedactedPlan(tools: Tools, o: Files, policy: Policy)
    requires Captured(o, policy) && policy.retention.Redacted?
    ensures var m := Prepared(tools, o, policy).manifest;
      m.stream.Some? && Readable(m.stream.value) && m.stderr == Some(StderrOf(Records(m.stream.value)))
  {
    hide StderrOf, Scrubbed, Ordered;
    RecordsOrdered(o.stream.value);
    RecordsWellReferenced(o.stream.value);
    ArchiveReadsBack(tools, Records(o.stream.value));
  }

  lemma TotalsAreRight(tools: Tools, o: Files, policy: Policy, k: nat)
    requires Captured(o, policy) && k >= 2
    ensures TotalsHold(Stage(tools, o, policy, k), Prepared(tools, o, policy).manifest)
  {
    hide Records;
  }

  // A retry that still finds a raw stream recomputes the very same receipt.
  lemma RawIsOriginal(tools: Tools, o: Files, policy: Policy, k: nat)
    requires Captured(o, policy) && 1 <= k <= 4
    requires Stage(tools, o, policy, k).stream.Some?
    requires Stage(tools, o, policy, k).stream.value == [] || AllRaw(Stage(tools, o, policy, k).stream.value)
    ensures Preparable(Stage(tools, o, policy, k), policy)
    ensures Prepared(tools, Stage(tools, o, policy, k), policy) == Prepared(tools, o, policy)
  {
    hide StderrOf, Records, CaptureMatches, Normalized, Scrubbed;
    var f := Stage(tools, o, policy, k);
    if k >= 3 && policy.retention.Redacted? {
      ArchiveIsMarked(tools, o, policy);
      assert o.stream.value == [];
      EmptyArchive(tools);
    }
    assert f.capture == o.capture && f.stream == o.stream && f.stderr == o.stderr && f.others == o.others;
  }

  lemma ArchiveIsMarked(tools: Tools, o: Files, policy: Policy)
    requires Captured(o, policy)
    ensures o.stream.value != [] ==>
              Archive(tools, Records(o.stream.value)) != [] && !AllRaw(Archive(tools, Records(o.stream.value)))
  {
    hide Records;
    if o.stream.value != [] {
      RecordsExist(o.stream.value);
      assert Archive(tools, Records(o.stream.value))[0].ArchivedLine?;
    }
  }

  lemma CapturedIsNew(o: Files, policy: Policy)
    requires Captured(o, policy)
    ensures o.trace.None? && o.receipt.None? && o.manifest.None? && Preparable(o, policy)
  {
  }

  lemma EmptyArchive(tools: Tools)
    ensures Archive(tools, Records([])) == []
    ensures StderrOf(Scrubbed(tools, Records([]))) == StderrOf(Records([]))
  {
    EmptyStream();
    assert Scrubbed(tools, []) == [];
  }

  // ---- every capture can be finalized

  lemma {:induction false} StoredNotEmpty(chunks: seq<Chunk>, limit: nat, n: nat)
    requires n <= |chunks|
    ensures forall e | e in Stored(chunks, limit, n) :: e.chunk.data != []
  {
    if n > 0 { StoredNotEmpty(chunks, limit, n - 1); }
  }

  // What a recorder closes is what the finalizer expects, for any input,
  // truncated or not.
  method CloseAndFinalize(recorder: StreamRecorder, tools: Tools, policy: Policy, others: nat)
    returns (m: Manifest, final: Files)
    requires recorder.Valid() && recorder.limit == policy.limit
    ensures m.policy == policy && m.capture.source == |Flat(recorder.input, |recorder.input|)|
    ensures m.capture.stored == Min(m.capture.source, policy.limit)
    ensures Accepted(final, m, policy) && final.manifest == Some(m) && final.receipt.None?
  {
    hide StreamRecorder.Valid, Accepted, Prepared, Readable, Records, StderrOf, Captured, Stored, Joined, Flat, Raw;
    var c := recorder.Close();
    var files := Files(Some(c), Some(Raw(recorder.stream)), Some(recorder.stderrLog), None, None, None, others);
    RecorderCaptured(recorder.input, recorder.limit, c, files, policy);
    var turn := new TurnTrace(tools, policy, files);
    var r := turn.FinalizeTurnTrace(LAST);
    m, final := r.manifest, turn.files;
    CapturedIsNew(files, policy);
    FinalIsAccepted(tools, files, policy, LAST);
    PlanCapture(tools, files, policy);
  }

  lemma PlanCapture(tools: Tools, o: Files, policy: Policy)
    requires Preparable(o, policy)
    ensures Prepared(tools, o, policy).manifest.capture == o.capture.value
    ensures Prepared(tools, o, policy).manifest.policy == policy
  {
  }

  lemma RecorderCaptured(input: seq<Chunk>, limit: nat, c: CaptureFile, f: Files, policy: Policy)
    requires f.trace.None? && f.receipt.None? && f.manifest.None?
    requires ConsistentCapture(c) && c.stored <= policy.limit == limit
    requires var stream := Stored(input, limit, |input|);
      && CaptureMatches(c, stream) && NumberedStream(stream)
      && f.capture == Some(c) && f.stream == Some(Raw(stream)) && f.stderr == Some(Joined(Chunks(stream), Stderr, |stream|))
    ensures Captured(f, policy)
  {
    hide Stored, PlayedBack, Joined;
    var stream := Stored(input, limit, |input|);
    StoredNotEmpty(input, limit, |input|);
    assert Envelopes(Raw(stream)) == stream;
    StderrMatches(stream);
  }
}
