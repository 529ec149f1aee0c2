/** What a finished Turn keeps of its Harness output, and the manifest that anchors it. */
module Trace {
  import opened Lines
  import opened Options
  import opened Capture
  import opened Playback
  import opened Refinement

  datatype Retention = Keep | Redacted | Delete
  datatype Policy = Policy(retention: Retention, limit: nat)

  // A line of stream.jsonl: an original chunk, or an archived record.
  datatype Line = RawLine(e: Envelope) | ArchivedLine(n: nat, r: StreamRecord)

  type Payload = nat
  datatype TraceEvent = TraceEvent(n: nat, at: int, source: Source, first: nat, last: nat, data: Payload)

  // The adapter's normalization, the redactor and the length of a serialized
  // event: fixed functions, deterministic but otherwise arbitrary.
  datatype Tools = Tools(normalize: StreamRecord -> seq<Payload>, redact: Bytes -> Bytes, hits: Bytes -> nat, width: TraceEvent -> nat,
                         scrubs: TraceEvent -> nat)

  // ---- reading a stream file

  predicate AllRaw(lines: seq<Line>) { forall i | 0 <= i < |lines| :: lines[i].RawLine? }
  predicate AllArchived(lines: seq<Line>) { forall i | 0 <= i < |lines| :: lines[i].ArchivedLine? }

  function Raw(stream: seq<Envelope>): (lines: seq<Line>)
    ensures |lines| == |stream|
  {
    seq(|stream|, i requires 0 <= i < |stream| => RawLine(stream[i]))
  }

  function Envelopes(lines: seq<Line>): (stream: seq<Envelope>)
    requires AllRaw(lines)
    ensures |stream| == |lines|
  {
    seq(|lines|, i requires 0 <= i < |lines| => lines[i].e)
  }

  function ArchivedRecords(lines: seq<Line>): (records: seq<StreamRecord>)
    requires AllArchived(lines)
    ensures |records| == |lines|
  {
    seq(|lines|, i requires 0 <= i < |lines| => lines[i].r)
  }

  // The raw reference of a record names at least one chunk.
  predicate WellReferenced(r: StreamRecord) { 1 <= r.first <= r.last }

  // _stream_envelopes: one schema, numbered from 1, and valid raw references.
  predicate Readable(lines: seq<Line>) {
    && (AllRaw(lines) || AllArchived(lines))
    && (forall i | 0 <= i < |lines| :: (if lines[i].RawLine? then lines[i].e.n else lines[i].n) == i + 1)
    && (forall i | 0 <= i < |lines| :: lines[i].ArchivedLine? ==> WellReferenced(lines[i].r))
  }

  // iter_stream_records
  function Records(lines: seq<Line>): seq<StreamRecord>
    requires Readable(lines)
  {
    if AllRaw(lines) then PlayedBack(Chunks(Envelopes(lines))) else Sort(ArchivedRecords(lines))
  }

  function StderrOf(records: seq<StreamRecord>): Bytes { Concat(DataOf(Select(records, Of(Stderr)))) }

  // ---- the normalized trace

  function EventsOf(tools: Tools, r: StreamRecord, payloads: seq<Payload>, n: nat): (events: seq<TraceEvent>)
    ensures |events| == |payloads|
  {
    seq(|payloads|, i requires 0 <= i < |payloads| => TraceEvent(n + i + 1, r.at, r.source, r.first, r.last, payloads[i]))
  }

  function Normalized(tools: Tools, records: seq<StreamRecord>): seq<TraceEvent> {
    if records == [] then []
    else
      var before := Normalized(tools, records[..|records| - 1]);
      var r := records[|records| - 1];
      before + EventsOf(tools, r, tools.normalize(r), |before|)
  }

  predicate RefersTo(e: TraceEvent, r: StreamRecord) {
    e.source == r.source && e.first == r.first && e.last == r.last
  }

  predicate Referenced(e: TraceEvent, records: seq<StreamRecord>) {
    exists i :: 0 <= i < |records| && RefersTo(e, records[i])
  }

  lemma EventsHaveRecords(tools: Tools, records: seq<StreamRecord>)
    ensures forall e | e in Normalized(tools, records) :: Referenced(e, records)
  {
    EventsInOrder(tools, records);
    forall e | e in Normalized(tools, records) ensures Referenced(e, records) {
      assert FoundIn(tools, e, records);
      var i :| 0 <= i < |records| && ComesFrom(tools, e, records[i]);
      assert RefersTo(e, records[i]);
    }
  }

  function PayloadsOf(tools: Tools, records: seq<StreamRecord>): seq<Payload> {
    if records == [] then [] else PayloadsOf(tools, records[..|records| - 1]) + tools.normalize(records[|records| - 1])
  }

  // One event for each payload the adapter finds, in order and numbered from 1,
  // with the time and the raw reference of the record it was found in.
  lemma {:induction false} EventsInOrder(tools: Tools, records: seq<StreamRecord>)
    ensures
      var events, payloads := Normalized(tools, records), PayloadsOf(tools, records);
      && |events| == |payloads|
      && (forall i | 0 <= i < |events| :: events[i].n == i + 1 && events[i].data == payloads[i])
      && (forall e | e in events :: FoundIn(tools, e, records))
  {
    if records != [] {
      var front, last := records[..|records| - 1], records[|records| - 1];
      EventsInOrder(tools, front);
      forall e | e in Normalized(tools, records) ensures FoundIn(tools, e, records) {
        if e in Normalized(tools, front) {
          var i :| 0 <= i < |front| && ComesFrom(tools, e, front[i]);
          assert ComesFrom(tools, e, records[i]);
        } else {
          assert ComesFrom(tools, e, last);
        }
      }
    }
  }

  predicate ComesFrom(tools: Tools, e: TraceEvent, r: StreamRecord) {
    RefersTo(e, r) && e.at == r.at && e.data in tools.normalize(r)
  }

  predicate FoundIn(tools: Tools, e: TraceEvent, records: seq<StreamRecord>) {
    exists i :: 0 <= i < |records| && ComesFrom(tools, e, records[i])
  }

  function Width(tools: Tools, events: seq<TraceEvent>, n: nat): nat
    requires n <= |events|
  {
    if n == 0 then 0 else Width(tools, events, n - 1) + tools.width(events[n - 1])
  }

  // _serialize_trace: the longest prefix that fits the byte limit.
  method SerializeTrace(tools: Tools, events: seq<TraceEvent>, limit: nat) returns (kept: nat, truncated: bool, omitted: nat)
    ensures kept + omitted == |events| && truncated == (omitted != 0)
    ensures Width(tools, events, kept) <= limit
    ensures kept < |events| ==> Width(tools, events, kept + 1) > limit
    ensures kept == Fitting(tools, events, limit, |events|)
  {
    kept := 0;
    var used := 0;
    while kept < |events|
      invariant 0 <= kept <= |events| && used == Width(tools, events, kept) <= limit
    {
      if used + tools.width(events[kept]) > limit {
        FittingStops(tools, events, limit, kept, |events|);
        return kept, true, |events| - kept;
      }
      used := used + tools.width(events[kept]);
      kept := kept + 1;
    }
    FittingAll(tools, events, limit, kept);
    return kept, false, 0;
  }

  // How many of the first n events fit, cutting at the first that does not.
  function Fitting(tools: Tools, events: seq<TraceEvent>, limit: nat, n: nat): (k: nat)
    requires n <= |events|
    ensures k <= n
  {
    if n == 0 then 0
    else
      var k := Fitting(tools, events, limit, n - 1);
      if k == n - 1 && Width(tools, events, n) <= limit then n else k
  }

  lemma {:induction false} FittingAll(tools: Tools, events: seq<TraceEvent>, limit: nat, n: nat)
    requires n <= |events| && Width(tools, events, n) <= limit
    ensures Fitting(tools, events, limit, n) == n
  {
    if n > 0 { FittingAll(tools, events, limit, n - 1); }
  }

  lemma {:induction false} FittingStops(tools: Tools, events: seq<TraceEvent>, limit: nat, k: nat, n: nat)
    requires k < n <= |events| && Width(tools, events, k) <= limit < Width(tools, events, k + 1)
    ensures Fitting(tools, events, limit, n) == k
  {
    if n == k + 1 { FittingAll(tools, events, limit, k); } else { FittingStops(tools, events, limit, k, n - 1); }
  }

  // ---- the redacted archive

  function Scrubbed(tools: Tools, records: seq<StreamRecord>): (out: seq<StreamRecord>)
    ensures |out| == |records|
  {
    seq(|records|, i requires 0 <= i < |records| => records[i].(data := tools.redact(records[i].data)))
  }

  function Archive(tools: Tools, records: seq<StreamRecord>): (lines: seq<Line>)
    ensures |lines| == |records|
  {
    seq(|records|, i requires 0 <= i < |records| => ArchivedLine(i + 1, Scrubbed(tools, records)[i]))
  }

  function Hits(tools: Tools, records: seq<StreamRecord>): nat {
    if records == [] then 0 else Hits(tools, records[..|records| - 1]) + tools.hits(records[|records| - 1].data)
  }

  // _redacted_stream
  method RedactStream(tools: Tools, records: seq<StreamRecord>) returns (lines: seq<Line>, stderr: Bytes, count: nat)
    ensures lines == Archive(tools, records)
    ensures stderr == StderrOf(Scrubbed(tools, records))
    ensures count == Hits(tools, records)
  {
    lines, stderr, count := [], [], 0;
    var n := 0;
    while n < |records|
      invariant 0 <= n <= |records|
      invariant lines == Archive(tools, records[..n])
      invariant stderr == StderrOf(Scrubbed(tools, records[..n]))
      invariant count == Hits(tools, records[..n])
    {
      var r := records[n];
      var data := tools.redact(r.data);
      ArchiveStep(tools, records, n);
      lines := lines + [ArchivedLine(n + 1, r.(data := data))];
      if r.source.Stderr? { stderr := stderr + data; }
      count := count + tools.hits(r.data);
      n := n + 1;
    }
    assert records[..n] == records;
  }

  lemma ArchiveStep(tools: Tools, records: seq<StreamRecord>, n: nat)
    requires n < |records|
    ensures
      var r := records[n].(data := tools.redact(records[n].data));
      && Archive(tools, records[..n + 1]) == Archive(tools, records[..n]) + [ArchivedLine(n + 1, r)]
      && Scrubbed(tools, records[..n + 1]) == Scrubbed(tools, records[..n]) + [r]
    ensures StderrOf(Scrubbed(tools, records[..n + 1]))
         == StderrOf(Scrubbed(tools, records[..n]))
            + (if records[n].source.Stderr? then tools.redact(records[n].data) else [])
    ensures Hits(tools, records[..n + 1]) == Hits(tools, records[..n]) + tools.hits(records[n].data)
  {
    var r := records[n].(data := tools.redact(records[n].data));
    var longer, shorter := Archive(tools, records[..n + 1]), Archive(tools, records[..n]);
    assert Scrubbed(tools, records[..n + 1]) == Scrubbed(tools, records[..n]) + [r];
    assert forall i | 0 <= i < n :: longer[i] == shorter[i];
    assert longer[n] == ArchivedLine(n + 1, Scrubbed(tools, records[..n + 1])[n]);
    assert longer == shorter + [ArchivedLine(n + 1, r)];
    StderrStep(Scrubbed(tools, records[..n]), r);
    assert records[..n + 1][..n] == records[..n];
  }

  lemma StderrStep(records: seq<StreamRecord>, r: StreamRecord)
    ensures StderrOf(records + [r]) == StderrOf(records) + (if r.source.Stderr? then r.data else [])
  {
    assert (records + [r])[..|records|] == records;
    var mine := Select(records, Of(Stderr));
    if r.source.Stderr? {
      DataPlus(mine, [r]);
      assert DataOf([r]) == [r.data];
      ConcatPlus(DataOf(mine), [r.data]);
      OneLine(r.data);
      assert Select(records + [r], Of(Stderr)) == mine + [r];
    } else {
      assert Select(records + [r], Of(Stderr)) == mine + [] == mine;
    }
  }

  // ---- replayed records refer to chunks of their stream

  lemma TailWellReferenced(chunks: seq<Chunk>, s: Source)
    ensures forall r | r in Tail(chunks, s) :: WellReferenced(r)
  {
    hide Pending;
    if chunks == [] {
      NothingPending();
      assert Joined(chunks, s, 0) == [];
    } else {
      FirstIsEarlier(chunks, s, |chunks|);
    }
  }

  lemma NothingPending()
    ensures Pending([]) == []
  {
    CutOne([]);
  }

  lemma PlayedWellReferenced(chunks: seq<Chunk>)
    ensures forall r | r in PlayedBack(chunks) :: WellReferenced(r)
  {
    hide Played, Tail, Sort;
    var n := |chunks|;
    var all := Played(chunks, n) + Tail(chunks, Stdout) + Tail(chunks, Stderr);
    PlayedInOrder(chunks, n);
    TailWellReferenced(chunks, Stdout);
    TailWellReferenced(chunks, Stderr);
    SortPermutes(all);
    forall r | r in PlayedBack(chunks) ensures WellReferenced(r) {
      assert r in multiset(Sort(all));
      assert r in all;
    }
  }

  // Whatever a readable stream replays to could be archived.
  lemma RecordsWellReferenced(lines: seq<Line>)
    requires Readable(lines)
    ensures forall i | 0 <= i < |Records(lines)| :: WellReferenced(Records(lines)[i])
  {
    hide PlayedBack, Sort;
    if AllRaw(lines) {
      PlayedWellReferenced(Chunks(Envelopes(lines)));
    } else {
      var records := ArchivedRecords(lines);
      SortPermutes(records);
      forall i | 0 <= i < |Records(lines)| ensures WellReferenced(Records(lines)[i]) {
        assert Sort(records)[i] in multiset(Sort(records));
        assert Sort(records)[i] in records;
      }
    }
  }

  // ---- the archive reads back as the records it was made of

  lemma {:induction false} SortOrdered(xs: seq<StreamRecord>)
    requires Ordered(xs)
    ensures Sort(xs) == xs
  {
    if xs != [] {
      SortOrdered(xs[..|xs| - 1]);
      assert xs == xs[..|xs| - 1] + [xs[|xs| - 1]];
    }
  }

  lemma ArchiveReadsBack(tools: Tools, records: seq<StreamRecord>)
    requires Ordered(records) && forall i | 0 <= i < |records| :: WellReferenced(records[i])
    ensures Readable(Archive(tools, records)) && AllArchived(Archive(tools, records))
    ensures records != [] ==> Records(Archive(tools, records)) == Scrubbed(tools, records)
    ensures |Records(Archive(tools, records))| == |records|
    ensures forall e | Referenced(e, records) :: Referenced(e, Records(Archive(tools, records)))
    ensures StderrOf(Records(Archive(tools, records))) == StderrOf(Scrubbed(tools, records))
  {
    hide Select, Sort;
    var lines := Archive(tools, records);
    if records == [] {
      EmptyStream();
    } else {
      assert !AllRaw(lines) by { assert lines[0].ArchivedLine?; }
      assert ArchivedRecords(lines) == Scrubbed(tools, records);
      SortOrdered(Scrubbed(tools, records));
      forall e | Referenced(e, records) ensures Referenced(e, Scrubbed(tools, records)) {
        var i :| 0 <= i < |records| && RefersTo(e, records[i]);
        assert RefersTo(e, Scrubbed(tools, records)[i]);
      }
    }
  }

  lemma EmptyStream()
    ensures Records([]) == []
  {
  }
}
