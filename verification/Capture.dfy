/** Capturing Harness output live, within a byte limit. */
module Capture {
  import opened Lines
  import opened Options

  datatype Source = Stdout | Stderr | Terminal

  // One read from a pipe, as observed.
  datatype Chunk = Chunk(source: Source, at: int, data: Bytes)
  // One stored line of stream.jsonl.
  datatype Envelope = Envelope(n: nat, chunk: Chunk)
  // One record handed to the adapter: the chunks its first and last byte came from.
  datatype StreamRecord = StreamRecord(source: Source, first: nat, last: nat, at: int, data: Bytes)

  // ---- what the recorder should have seen after n chunks

  function Joined(chunks: seq<Chunk>, s: Source, n: nat): Bytes
    requires n <= |chunks|
  {
    if n == 0 then [] else Joined(chunks, s, n - 1) + (if chunks[n - 1].source == s then chunks[n - 1].data else [])
  }

  function Flat(chunks: seq<Chunk>, n: nat): Bytes
    requires n <= |chunks|
  {
    if n == 0 then [] else Flat(chunks, n - 1) + chunks[n - 1].data
  }

  function Buffered(chunks: seq<Chunk>, s: Source, n: nat): Bytes
    requires n <= |chunks|
  {
    if s.Terminal? then [] else Pending(Joined(chunks, s, n))
  }

  // The buffer the record loop starts from when the n-th chunk has arrived.
  function Arrived(chunks: seq<Chunk>, n: nat): Bytes
    requires 0 < n <= |chunks|
  {
    Buffered(chunks, chunks[n - 1].source, n - 1) + chunks[n - 1].data
  }

  // The chunk in which the buffered, incomplete record began.
  function First(chunks: seq<Chunk>, s: Source, n: nat): Option<nat>
    requires n <= |chunks|
    decreases n, 1
  {
    if n == 0 || s.Terminal? then None
    else if chunks[n - 1].source != s then First(chunks, s, n - 1)
    else FirstAfter(Arrived(chunks, n), Opened(chunks, n), n)
  }

  // `first_seq[source]` once the chunk has been appended to its buffer.
  function Opened(chunks: seq<Chunk>, n: nat): nat
    requires 0 < n <= |chunks|
    decreases n, 0
  {
    var before := First(chunks, chunks[n - 1].source, n - 1);
    if before.Some? then before.value else n
  }

  function FirstAfter(arrived: Bytes, start: nat, n: nat): Option<nat> {
    if Complete(arrived) == [] then Some(start)
    else if Pending(arrived) == [] then None
    else Some(n)
  }

  function RecordsOf(lines: seq<Bytes>, s: Source, first: nat, n: nat, at: int): (records: seq<StreamRecord>)
    ensures |records| == |lines|
  {
    seq(|lines|, k requires 0 <= k < |lines| => StreamRecord(s, if k == 0 then first else n, n, at, lines[k]))
  }

  // The records the n-th chunk completes.
  function NewRecords(chunks: seq<Chunk>, n: nat): seq<StreamRecord>
    requires 0 < n <= |chunks|
  {
    var c := chunks[n - 1];
    if c.source.Terminal? then [] else RecordsOf(Complete(Arrived(chunks, n)), c.source, Opened(chunks, n), n, c.at)
  }

  function Emitted(chunks: seq<Chunk>, n: nat): seq<StreamRecord>
    requires n <= |chunks|
  {
    if n == 0 then [] else Emitted(chunks, n - 1) + NewRecords(chunks, n)
  }

  // ---- the prefix that fits the byte limit

  function Min(a: nat, b: nat): nat { if a <= b then a else b }

  function Kept(chunks: seq<Chunk>, limit: nat, n: nat): Bytes
    requires 0 < n <= |chunks|
  {
    var remaining := if |Flat(chunks, n - 1)| <= limit then limit - |Flat(chunks, n - 1)| else 0;
    chunks[n - 1].data[..Min(|chunks[n - 1].data|, remaining)]
  }

  function Stored(chunks: seq<Chunk>, limit: nat, n: nat): seq<Envelope>
    requires n <= |chunks|
  {
    if n == 0 then []
    else
      var kept := Kept(chunks, limit, n);
      var c := chunks[n - 1];
      Stored(chunks, limit, n - 1) + (if kept == [] then [] else [Envelope(n, Chunk(c.source, c.at, kept))])
  }

  function Chunks(stream: seq<Envelope>): (chunks: seq<Chunk>)
    ensures |chunks| == |stream|
  {
    seq(|stream|, i requires 0 <= i < |stream| => stream[i].chunk)
  }

  // ---- prefixes of the chunk sequence

  predicate Agree(a: seq<Chunk>, b: seq<Chunk>, n: nat) {
    n <= |a| && n <= |b| && forall i | 0 <= i < n :: a[i] == b[i]
  }

  lemma {:induction false} SameBytes(a: seq<Chunk>, b: seq<Chunk>, s: Source, n: nat)
    requires Agree(a, b, n)
    ensures Joined(a, s, n) == Joined(b, s, n) && Flat(a, n) == Flat(b, n)
  {
    if n > 0 { SameBytes(a, b, s, n - 1); }
  }

  lemma {:induction false} SameFirst(a: seq<Chunk>, b: seq<Chunk>, s: Source, n: nat)
    requires Agree(a, b, n)
    ensures First(a, s, n) == First(b, s, n)
  {
    hide Complete, Pending;
    if n > 0 {
      SameFirst(a, b, s, n - 1);
      SameBytes(a, b, s, n - 1);
    }
  }

  lemma {:induction false} SameEmitted(a: seq<Chunk>, b: seq<Chunk>, n: nat)
    requires Agree(a, b, n)
    ensures Emitted(a, n) == Emitted(b, n)
  {
    hide Complete, Pending, RecordsOf;
    if n > 0 {
      SameEmitted(a, b, n - 1);
      SameFirst(a, b, a[n - 1].source, n - 1);
      SameBytes(a, b, a[n - 1].source, n - 1);
    }
  }

  lemma {:induction false} SameStored(a: seq<Chunk>, b: seq<Chunk>, limit: nat, n: nat)
    requires Agree(a, b, n)
    ensures Stored(a, limit, n) == Stored(b, limit, n)
  {
    if n > 0 {
      SameStored(a, b, limit, n - 1);
      SameBytes(a, b, Stdout, n - 1);
    }
  }

  // ---- capture accounting

  lemma {:induction false} StoredIsPrefix(chunks: seq<Chunk>, limit: nat, n: nat)
    requires n <= |chunks|
    ensures var stored := Stored(chunks, limit, n);
            Flat(Chunks(stored), |stored|) == Flat(chunks, n)[..Min(|Flat(chunks, n)|, limit)]
  {
    if n > 0 {
      StoredIsPrefix(chunks, limit, n - 1);
      var before, stored := Stored(chunks, limit, n - 1), Stored(chunks, limit, n);
      var whole := Flat(chunks, n - 1)[..Min(|Flat(chunks, n - 1)|, limit)];
      var kept := Kept(chunks, limit, n);
      KeepsPrefix(Flat(chunks, n - 1), chunks[n - 1].data, limit);
      if kept == [] {
        assert whole + kept == whole && stored == before;
      } else {
        SameBytes(Chunks(stored), Chunks(before), Stdout, |before|);
      }
    }
  }

  // Stored envelopes are numbered from 1 without a gap: nothing is stored after
  // a chunk has been dropped.
  lemma {:induction false} StoredIsNumbered(chunks: seq<Chunk>, limit: nat, n: nat)
    requires n <= |chunks| && forall i | 0 <= i < |chunks| :: chunks[i].data != []
    ensures |Stored(chunks, limit, n)| == n || |Flat(chunks, n)| > limit
    ensures |Stored(chunks, limit, n)| <= n && NumberedStream(Stored(chunks, limit, n))
  {
    if n > 0 { StoredIsNumbered(chunks, limit, n - 1); }
  }

  // Cutting the next chunk at the limit cuts the whole input at the limit.
  lemma KeepsPrefix(before: Bytes, data: Bytes, limit: nat)
    ensures
      var remaining := if |before| <= limit then limit - |before| else 0;
      (before + data)[..Min(|before + data|, limit)]
      == before[..Min(|before|, limit)] + data[..Min(|data|, remaining)]
  {
  }

  // Below the limit the stored stream is the input itself.
  lemma {:induction false} StoredWhole(chunks: seq<Chunk>, limit: nat, n: nat)
    requires n <= |chunks| && |Flat(chunks, n)| <= limit && forall i | 0 <= i < |chunks| :: chunks[i].data != []
    ensures |Stored(chunks, limit, n)| == n
    ensures Chunks(Stored(chunks, limit, n)) == chunks[..n]
  {
    if n > 0 {
      StoredWhole(chunks, limit, n - 1);
      assert Kept(chunks, limit, n) == chunks[n - 1].data;
    }
  }

  // ---- the recorder

  datatype CaptureFile = CaptureFile(source: nat, stored: nat, dropped: nat, observed: nat, chunks: nat, truncated: bool)

  // _validate_capture_file and _validate_capture_against_stream
  predicate ConsistentCapture(c: CaptureFile) {
    c.source == c.stored + c.dropped && c.chunks <= c.observed && c.truncated == (c.dropped != 0)
  }

  predicate NumberedStream(stream: seq<Envelope>) {
    forall i | 0 <= i < |stream| :: stream[i].n == i + 1
  }

  predicate CaptureMatches(c: CaptureFile, stream: seq<Envelope>) {
    c.chunks == |stream| && c.stored == |Flat(Chunks(stream), |stream|)|
  }

  // The record loop that the recorder and the replay share: find the newline,
  // cut the record off, note where the next one begins.
  method CutRecords(arrived: Bytes, s: Source, start: nat, n: nat, at: int)
    returns (records: seq<StreamRecord>, rest: Bytes, first: Option<nat>)
    ensures records == RecordsOf(Complete(arrived), s, start, n, at)
    ensures rest == Pending(arrived) && first == FirstAfter(arrived, start, n)
  {
    hide Complete, Pending, RecordsOf;
    rest := arrived;
    first := Some(start);
    records := [];
    ghost var done: seq<Bytes> := [];
    NoRecords(s, start, n, at);
    while FindLf(rest) < |rest|
      invariant Complete(arrived) == done + Complete(rest) && Pending(arrived) == Pending(rest)
      invariant first == if done == [] then Some(start) else if rest == [] then None else Some(n)
      invariant records == RecordsOf(done, s, start, n, at)
      decreases |rest|
    {
      var newline := FindLf(rest);
      var data := rest[..newline + 1];
      CutOne(rest);
      rest := rest[newline + 1..];
      records := records + [StreamRecord(s, if first.Some? then first.value else n, n, at, data)];
      first := if rest != [] then Some(n) else None;
      OneMore(done, data, s, start, n, at);
      done := done + [data];
    }
    CutOne(rest);
    assert done + [] == done;
  }

  class StreamRecorder {
    const limit: nat
    var n: nat
    var buffers: map<Source, Bytes>
    var firsts: map<Source, Option<nat>>
    var sourceBytes: nat
    var storedBytes: nat
    var droppedBytes: nat
    var chunksStored: nat
    var truncated: bool
    var stream: seq<Envelope>
    var stderrLog: Bytes
    var parsed: seq<StreamRecord>
    ghost var input: seq<Chunk>

    // The counters, the stream file and the stderr log after the given input.
    ghost predicate Accounts(all: seq<Chunk>)
      reads this`sourceBytes, this`storedBytes, this`droppedBytes, this`chunksStored, this`truncated, this`stream, this`stderrLog
    {
      && stream == Stored(all, limit, |all|) && chunksStored == |stream|
      && sourceBytes == |Flat(all, |all|)| && storedBytes == Min(sourceBytes, limit)
      && droppedBytes == sourceBytes - storedBytes && truncated == (droppedBytes != 0)
      && stderrLog == Joined(Chunks(stream), Stderr, |stream|)
    }

    // The buffers and the parsed records after the given input.
    ghost predicate Parses(all: seq<Chunk>)
      reads this`buffers, this`firsts, this`parsed
    {
      && buffers.Keys == firsts.Keys == {Stdout, Stderr, Terminal}
      && (forall s | s in buffers :: buffers[s] == Buffered(all, s, |all|))
      && (forall s | s in firsts :: firsts[s] == First(all, s, |all|))
      && parsed == Emitted(all, |all|)
    }

    ghost predicate Valid()
      reads this
    {
      n == |input| && (forall i | 0 <= i < |input| :: input[i].data != []) && Accounts(input) && Parses(input)
    }

    constructor (limit: nat)
      ensures Valid() && input == [] && this.limit == limit
    {
      this.limit := limit;
      n, sourceBytes, storedBytes, droppedBytes, chunksStored, truncated := 0, 0, 0, 0, 0, false;
      buffers := map[Stdout := [], Stderr := [], Terminal := []];
      firsts := map[Stdout := None, Stderr := None, Terminal := None];
      stream, stderrLog, parsed, input := [], [], [], [];
    }

    // The storing half of record.
    method Store(c: Chunk)
      requires n == |input| + 1 && c.data != [] && Accounts(input)
      modifies this`sourceBytes, this`storedBytes, this`droppedBytes, this`chunksStored, this`truncated, this`stream, this`stderrLog
      ensures Accounts(input + [c])
    {
      hide Stored, Flat, Joined, Kept;
      StoreStep(input, c, limit);
      sourceBytes := sourceBytes + |c.data|;
      var remaining := if limit <= storedBytes then 0 else limit - storedBytes;
      var kept := c.data[..Min(|c.data|, remaining)];
      storedBytes := storedBytes + |kept|;
      droppedBytes := droppedBytes + (|c.data| - |kept|);
      if |kept| != |c.data| { truncated := true; }
      if kept != [] {
        var e := Envelope(n, Chunk(c.source, c.at, kept));
        StderrStep(stream, e);
        chunksStored := chunksStored + 1;
        stream := stream + [e];
        if c.source.Stderr? { stderrLog := stderrLog + kept; }
      }
    }

    // The parsing half of record: cut off every record the chunk completes. A
    // terminal recording is not parsed.
    method Parse(c: Chunk)
      requires n == |input| + 1 && c.data != [] && Parses(input)
      modifies this`buffers, this`firsts, this`parsed
      ensures Parses(input + [c])
    {
      hide Buffered, First, Emitted, Complete, Pending, RecordsOf, FirstAfter;
      ParseStep(input, c);
      if c.source.Terminal? { return; }
      var s := c.source;
      var start := if firsts[s].Some? then firsts[s].value else n;
      var records, rest, first := CutRecords(buffers[s] + c.data, s, start, n, c.at);
      parsed := parsed + records;
      buffers := buffers[s := rest];
      firsts := firsts[s := first];
    }

    method Record(c: Chunk)
      requires Valid()
      modifies this
      ensures Valid() && input == if c.data == [] then old(input) else old(input) + [c]
    {
      hide Accounts, Parses;
      if c.data == [] { return; }
      n := n + 1;
      Store(c);
      Parse(c);
      input := input + [c];
    }

    // close: the capture file every later reader checks the stream against.
    method Close() returns (c: CaptureFile)
      requires Valid()
      ensures ConsistentCapture(c) && CaptureMatches(c, stream) && NumberedStream(stream)
      ensures c.source == |Flat(input, |input|)| && c.stored == Min(c.source, limit) && c.observed == |input|
      ensures stream == Stored(input, limit, |input|) && stderrLog == Joined(Chunks(stream), Stderr, |stream|)
    {
      StoredIsPrefix(input, limit, n);
      StoredIsNumbered(input, limit, n);
      return CaptureFile(sourceBytes, storedBytes, droppedBytes, n, chunksStored, truncated);
    }
  }

  lemma StoreStep(input: seq<Chunk>, c: Chunk, limit: nat)
    requires c.data != []
    ensures
      var n := |input|;
      var used := Min(|Flat(input, n)|, limit);
      var kept := c.data[..Min(|c.data|, if limit <= used then 0 else limit - used)];
      && Flat(input + [c], n + 1) == Flat(input, n) + c.data
      && Stored(input + [c], limit, n + 1)
         == Stored(input, limit, n) + (if kept == [] then [] else [Envelope(n + 1, Chunk(c.source, c.at, kept))])
  {
    SameStored(input + [c], input, limit, |input|);
    SameBytes(input + [c], input, Stdout, |input|);
  }

  lemma StderrStep(stream: seq<Envelope>, e: Envelope)
    ensures Joined(Chunks(stream + [e]), Stderr, |stream| + 1)
         == Joined(Chunks(stream), Stderr, |stream|) + (if e.chunk.source.Stderr? then e.chunk.data else [])
  {
    SameBytes(Chunks(stream + [e]), Chunks(stream), Stderr, |stream|);
  }

  lemma NoRecords(s: Source, first: nat, n: nat, at: int)
    ensures RecordsOf([], s, first, n, at) == []
  {
  }

  lemma OneMore(lines: seq<Bytes>, line: Bytes, s: Source, first: nat, n: nat, at: int)
    ensures RecordsOf(lines + [line], s, first, n, at)
         == RecordsOf(lines, s, first, n, at) + [StreamRecord(s, if lines == [] then first else n, n, at, line)]
  {
  }

  // What one more chunk does to the state a recorder or a replay should be in.
  lemma ParseStep(input: seq<Chunk>, c: Chunk)
    requires c.data != []
    ensures
      var all := input + [c];
      var n := |input|;
      var arrived := Buffered(input, c.source, n) + c.data;
      var before := First(input, c.source, n);
      var start := if before.Some? then before.value else n + 1;
      && (forall s: Source | s != c.source || s.Terminal? ::
            Buffered(all, s, n + 1) == Buffered(input, s, n) && First(all, s, n + 1) == First(input, s, n))
      && (if c.source.Terminal? then Emitted(all, n + 1) == Emitted(input, n)
          else && Buffered(all, c.source, n + 1) == Pending(arrived)
               && First(all, c.source, n + 1) == FirstAfter(arrived, start, n + 1)
               && Emitted(all, n + 1) == Emitted(input, n) + RecordsOf(Complete(arrived), c.source, start, n + 1, c.at))
  {
    hide Pending, Complete, FindLf, RecordsOf, FirstAfter, Joined, Buffered, First, Emitted;
    forall s: Source | s != c.source || s.Terminal?
      ensures Buffered(input + [c], s, |input| + 1) == Buffered(input, s, |input|)
      ensures First(input + [c], s, |input| + 1) == First(input, s, |input|)
    {
      OtherStep(input, c, s);
    }
    SourceStep(input, c);
  }

  lemma OtherStep(input: seq<Chunk>, c: Chunk, s: Source)
    requires s != c.source || s.Terminal?
    ensures Buffered(input + [c], s, |input| + 1) == Buffered(input, s, |input|)
    ensures First(input + [c], s, |input| + 1) == First(input, s, |input|)
  {
    hide Pending, Complete, RecordsOf, FirstAfter;
    var all := input + [c];
    SameBytes(all, input, s, |input|);
    SameFirst(all, input, s, |input|);
    if s != c.source { assert Joined(all, s, |input|) + [] == Joined(all, s, |input|); }
  }

  lemma SourceStep(input: seq<Chunk>, c: Chunk)
    ensures
      var all := input + [c];
      var n := |input|;
      var arrived := Buffered(input, c.source, n) + c.data;
      var before := First(input, c.source, n);
      var start := if before.Some? then before.value else n + 1;
      if c.source.Terminal? then Emitted(all, n + 1) == Emitted(input, n)
      else && Buffered(all, c.source, n + 1) == Pending(arrived)
           && First(all, c.source, n + 1) == FirstAfter(arrived, start, n + 1)
           && Emitted(all, n + 1) == Emitted(input, n) + RecordsOf(Complete(arrived), c.source, start, n + 1, c.at)
  {
    hide Pending, Complete, RecordsOf, FirstAfter, Joined, Buffered, First, Arrived, Opened;
    var all := input + [c];
    var n := |input|;
    SameEmitted(all, input, n);
    ArriveStep(input, c);
    if c.source.Terminal? {
      assert Emitted(all, n) + [] == Emitted(all, n);
    } else {
      BufferStep(input, c);
    }
  }

  lemma ArriveStep(input: seq<Chunk>, c: Chunk)
    ensures
      var n := |input|;
      var before := First(input, c.source, n);
      && Arrived(input + [c], n + 1) == Buffered(input, c.source, n) + c.data
      && Opened(input + [c], n + 1) == if before.Some? then before.value else n + 1
  {
    hide Pending, Complete;
    SameBytes(input + [c], input, c.source, |input|);
    SameFirst(input + [c], input, c.source, |input|);
  }

  lemma BufferStep(input: seq<Chunk>, c: Chunk)
    requires !c.source.Terminal?
    ensures
      var n := |input|;
      && Buffered(input + [c], c.source, n + 1) == Pending(Buffered(input, c.source, n) + c.data)
      && First(input + [c], c.source, n + 1) == FirstAfter(Arrived(input + [c], n + 1), Opened(input + [c], n + 1), n + 1)
  {
    hide Pending, Complete, FirstAfter, Arrived, Opened;
    SameBytes(input + [c], input, c.source, |input|);
    FeedInParts(Joined(input, c.source, |input|), c.data);
  }
}
