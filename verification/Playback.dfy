/** Rebuilding the records from the stored stream, and why they are the live ones. */
module Playback {
  import opened Lines
  import opened Options
  import opened Capture

  // ---- the stable sort at the end of the replay

  function Rank(s: Source): nat { match s case Stderr => 0 case Stdout => 1 case Terminal => 2 }

  predicate Leq(a: StreamRecord, b: StreamRecord) {
    || a.last < b.last
    || (a.last == b.last && a.first < b.first)
    || (a.last == b.last && a.first == b.first && Rank(a.source) <= Rank(b.source))
  }

  function Insert(r: StreamRecord, xs: seq<StreamRecord>): seq<StreamRecord> {
    if xs == [] then [r]
    else if Leq(xs[|xs| - 1], r) then xs + [r]
    else Insert(r, xs[..|xs| - 1]) + [xs[|xs| - 1]]
  }

  function Sort(xs: seq<StreamRecord>): seq<StreamRecord> {
    if xs == [] then [] else Insert(xs[|xs| - 1], Sort(xs[..|xs| - 1]))
  }

  function Select(xs: seq<StreamRecord>, p: StreamRecord -> bool): seq<StreamRecord> {
    if xs == [] then []
    else Select(xs[..|xs| - 1], p) + (if p(xs[|xs| - 1]) then [xs[|xs| - 1]] else [])
  }

  lemma {:induction false} InsertAdds(r: StreamRecord, xs: seq<StreamRecord>)
    ensures multiset(Insert(r, xs)) == multiset(xs) + multiset{r}
  {
    if xs != [] {
      assert xs == xs[..|xs| - 1] + [xs[|xs| - 1]];
      InsertAdds(r, xs[..|xs| - 1]);
    }
  }

  lemma {:induction false} SortPermutes(xs: seq<StreamRecord>)
    ensures multiset(Sort(xs)) == multiset(xs)
  {
    hide Insert;
    if xs != [] {
      var front := xs[..|xs| - 1];
      SortPermutes(front);
      InsertAdds(xs[|xs| - 1], Sort(front));
      assert multiset(xs) == multiset(front + [xs[|xs| - 1]]) by { assert xs == front + [xs[|xs| - 1]]; }
    }
  }

  predicate Ordered(xs: seq<StreamRecord>) {
    forall i, j | 0 <= i < j < |xs| :: Leq(xs[i], xs[j])
  }

  lemma {:induction false} InsertOrders(r: StreamRecord, xs: seq<StreamRecord>)
    requires Ordered(xs)
    ensures Ordered(Insert(r, xs))
  {
    if xs != [] {
      var front, last := xs[..|xs| - 1], xs[|xs| - 1];
      if Leq(last, r) {
        forall i | 0 <= i < |xs| ensures Leq(xs[i], r) { assert i < |xs| - 1 ==> Leq(xs[i], last); }
      } else {
        InsertOrders(r, front);
        InsertAdds(r, front);
        var out := Insert(r, front);
        forall i | 0 <= i < |out| ensures Leq(out[i], last) {
          assert out[i] in multiset(out);
          assert out[i] == r || out[i] in front;
        }
      }
    }
  }

  lemma {:induction false} SortOrders(xs: seq<StreamRecord>)
    ensures Ordered(Sort(xs))
  {
    if xs != [] {
      SortOrders(xs[..|xs| - 1]);
      InsertOrders(xs[|xs| - 1], Sort(xs[..|xs| - 1]));
    }
  }

  lemma {:induction false} InsertSelects(r: StreamRecord, xs: seq<StreamRecord>, p: StreamRecord -> bool)
    requires p(r) ==> forall x | x in xs :: p(x) ==> Leq(x, r)
    ensures Select(Insert(r, xs), p) == Select(xs, p) + (if p(r) then [r] else [])
  {
    if xs == [] {
      assert [r][..0] == [];
    } else if Leq(xs[|xs| - 1], r) {
      assert (xs + [r])[..|xs|] == xs;
    } else {
      var front := xs[..|xs| - 1];
      InsertSelects(r, front, p);
      var out := Insert(r, front) + [xs[|xs| - 1]];
      assert out[..|out| - 1] == Insert(r, front);
    }
  }

  // Records that were already in order among themselves keep that order.
  lemma {:induction false} SortKeeps(xs: seq<StreamRecord>, p: StreamRecord -> bool)
    requires forall i, j | 0 <= i < j < |xs| && p(xs[i]) && p(xs[j]) :: Leq(xs[i], xs[j])
    ensures Select(Sort(xs), p) == Select(xs, p)
  {
    if xs != [] {
      var front := xs[..|xs| - 1];
      SortKeeps(front, p);
      SortPermutes(front);
      forall x | x in Sort(front) && p(x) && p(xs[|xs| - 1]) ensures Leq(x, xs[|xs| - 1]) {
        assert x in multiset(Sort(front));
        assert x in front;
      }
      InsertSelects(xs[|xs| - 1], Sort(front), p);
    }
  }

  lemma {:induction false} SelectPlus(xs: seq<StreamRecord>, ys: seq<StreamRecord>, p: StreamRecord -> bool)
    ensures Select(xs + ys, p) == Select(xs, p) + Select(ys, p)
  {
    if ys == [] {
      assert xs + ys == xs;
    } else {
      SelectPlus(xs, ys[..|ys| - 1], p);
      assert (xs + ys)[..|xs + ys| - 1] == xs + ys[..|ys| - 1];
    }
  }

  // ---- the replay

  // The records the replay appends for the n-th chunk.
  function Appended(chunks: seq<Chunk>, n: nat): seq<StreamRecord>
    requires 0 < n <= |chunks|
  {
    var c := chunks[n - 1];
    if c.source.Terminal? then [StreamRecord(Terminal, n, n, c.at, c.data)] else NewRecords(chunks, n)
  }

  // Records in the order the replay appends them, before the sort.
  function Played(chunks: seq<Chunk>, n: nat): seq<StreamRecord>
    requires n <= |chunks|
  {
    if n == 0 then [] else Played(chunks, n - 1) + Appended(chunks, n)
  }

  function LastAt(chunks: seq<Chunk>, s: Source, n: nat): int
    requires n <= |chunks|
  {
    if n == 0 then 0 else if chunks[n - 1].source == s then chunks[n - 1].at else LastAt(chunks, s, n - 1)
  }

  // The incomplete record of one source when the stream ends.
  function Tail(chunks: seq<Chunk>, s: Source): seq<StreamRecord> {
    var n := |chunks|;
    var first := First(chunks, s, n);
    if Buffered(chunks, s, n) == [] then []
    else [StreamRecord(s, if first.Some? then first.value else n, n, LastAt(chunks, s, n), Buffered(chunks, s, n))]
  }

  function PlayedBack(chunks: seq<Chunk>): seq<StreamRecord> {
    Sort(Played(chunks, |chunks|) + Tail(chunks, Stdout) + Tail(chunks, Stderr))
  }

  lemma ReplayStep(chunks: seq<Chunk>, n: nat, s: Source)
    requires n < |chunks|
    ensures s != chunks[n].source || s.Terminal? ==>
              Buffered(chunks, s, n + 1) == Buffered(chunks, s, n) && First(chunks, s, n + 1) == First(chunks, s, n)
    ensures s == chunks[n].source && !s.Terminal? ==> Buffered(chunks, s, n + 1) == Pending(Arrived(chunks, n + 1))
  {
    hide Pending, Complete;
    if s == chunks[n].source {
      FeedInParts(Joined(chunks, s, n), chunks[n].data);
    } else {
      assert Joined(chunks, s, n) + [] == Joined(chunks, s, n);
    }
  }

  // What the replay holds after n chunks.
  ghost predicate Following(chunks: seq<Chunk>, n: nat, buffers: map<Source, Bytes>, firsts: map<Source, Option<nat>>,
      observed: map<Source, int>, records: seq<StreamRecord>)
  {
    && n <= |chunks|
    && buffers.Keys == firsts.Keys == observed.Keys == {Stdout, Stderr, Terminal}
    && (forall s | s in buffers :: buffers[s] == Buffered(chunks, s, n))
    && (forall s | s in firsts :: firsts[s] == First(chunks, s, n))
    && (forall s | s in observed :: observed[s] == LastAt(chunks, s, n))
    && records == Played(chunks, n)
  }

  lemma FollowingNext(chunks: seq<Chunk>, n: nat, buffers: map<Source, Bytes>, firsts: map<Source, Option<nat>>,
      observed: map<Source, int>, records: seq<StreamRecord>, rest: Bytes, first: Option<nat>)
    requires n < |chunks| && Following(chunks, n, buffers, firsts, observed, records)
    requires !chunks[n].source.Terminal?
    requires rest == Pending(Arrived(chunks, n + 1)) && first == FirstAfter(Arrived(chunks, n + 1), Opened(chunks, n + 1), n + 1)
    ensures
      var c := chunks[n];
      Following(chunks, n + 1, buffers[c.source := rest], firsts[c.source := first], observed[c.source := c.at],
                records + NewRecords(chunks, n + 1))
  {
    hide Pending, Complete, FirstAfter, Arrived, Opened, NewRecords, Buffered;
    forall s | s in buffers
      ensures s != chunks[n].source ==> Buffered(chunks, s, n + 1) == Buffered(chunks, s, n)
      ensures s == chunks[n].source ==> Buffered(chunks, s, n + 1) == rest
    {
      ReplayStep(chunks, n, s);
    }
  }

  lemma FollowingTerminal(chunks: seq<Chunk>, n: nat, buffers: map<Source, Bytes>, firsts: map<Source, Option<nat>>,
      observed: map<Source, int>, records: seq<StreamRecord>)
    requires n < |chunks| && Following(chunks, n, buffers, firsts, observed, records) && chunks[n].source.Terminal?
    ensures
      var c := chunks[n];
      Following(chunks, n + 1, buffers, firsts, observed[Terminal := c.at],
                records + [StreamRecord(Terminal, n + 1, n + 1, c.at, c.data)])
  {
    hide Pending, Complete, FirstAfter, Arrived, Opened, NewRecords, Buffered;
    forall s | s in buffers
      ensures Buffered(chunks, s, n + 1) == Buffered(chunks, s, n) && First(chunks, s, n + 1) == First(chunks, s, n)
    {
      ReplayStep(chunks, n, s);
    }
  }

  // iter_stream_records on a Schema 1 stream.
  method Replay(stream: seq<Envelope>) returns (r: Option<seq<StreamRecord>>)
    ensures r.Some? <==> NumberedStream(stream)
    ensures r.Some? ==> r.value == PlayedBack(Chunks(stream))
  {
    hide Complete, Pending, Sort, RecordsOf, FirstAfter, Buffered, First, Joined, NewRecords, Following, Played;
    var i := 0;
    while i < |stream|
      invariant 0 <= i <= |stream| && NumberedStream(stream[..i])
    {
      if stream[i].n != i + 1 { return None; }
      i := i + 1;
    }
    var chunks := Chunks(stream);
    var buffers: map<Source, Bytes> := map[Stdout := [], Stderr := [], Terminal := []];
    var firsts: map<Source, Option<nat>> := map[Stdout := None, Stderr := None, Terminal := None];
    var observed: map<Source, int> := map[Stdout := 0, Stderr := 0, Terminal := 0];
    var records: seq<StreamRecord> := [];
    FollowingStart(chunks);
    var n := 0;
    while n < |chunks|
      invariant Following(chunks, n, buffers, firsts, observed, records)
      invariant n <= |chunks|
    {
      var c := chunks[n];
      FollowingSource(chunks, n, buffers, firsts, observed, records);
      if c.source.Terminal? {
        FollowingTerminal(chunks, n, buffers, firsts, observed, records);
        records := records + [StreamRecord(Terminal, n + 1, n + 1, c.at, c.data)];
        observed := observed[Terminal := c.at];
      } else {
        var start := if firsts[c.source].Some? then firsts[c.source].value else n + 1;
        var cut, rest, first := CutRecords(buffers[c.source] + c.data, c.source, start, n + 1, c.at);
        FollowingNext(chunks, n, buffers, firsts, observed, records, rest, first);
        records := records + cut;
        buffers := buffers[c.source := rest];
        firsts := firsts[c.source := first];
        observed := observed[c.source := c.at];
      }
      n := n + 1;
    }
    FollowingEnd(chunks, buffers, firsts, observed, records);
    var out := if buffers[Stdout] == [] then []
               else [StreamRecord(Stdout, if firsts[Stdout].Some? then firsts[Stdout].value else n, n, observed[Stdout], buffers[Stdout])];
    var err := if buffers[Stderr] == [] then []
               else [StreamRecord(Stderr, if firsts[Stderr].Some? then firsts[Stderr].value else n, n, observed[Stderr], buffers[Stderr])];
    r := Some(Sort(records + (out + err)));
  }

  lemma FollowingStart(chunks: seq<Chunk>)
    ensures Following(chunks, 0, map[Stdout := [], Stderr := [], Terminal := []],
                      map[Stdout := None, Stderr := None, Terminal := None], map[Stdout := 0, Stderr := 0, Terminal := 0], [])
  {
  }

  lemma FollowingSource(chunks: seq<Chunk>, n: nat, buffers: map<Source, Bytes>, firsts: map<Source, Option<nat>>,
      observed: map<Source, int>, records: seq<StreamRecord>)
    requires n < |chunks| && Following(chunks, n, buffers, firsts, observed, records)
    ensures var s := chunks[n].source;
      && s in buffers && s in firsts && Terminal in observed && s in observed
      && Arrived(chunks, n + 1) == buffers[s] + chunks[n].data
      && Opened(chunks, n + 1) == (if firsts[s].Some? then firsts[s].value else n + 1)
      && (s.Terminal? || NewRecords(chunks, n + 1)
                         == RecordsOf(Complete(Arrived(chunks, n + 1)), s, Opened(chunks, n + 1), n + 1, chunks[n].at))
  {
    hide Complete, Pending, RecordsOf, First, Buffered;
    match chunks[n].source { case Stdout => case Stderr => case Terminal => }
  }

  lemma FollowingEnd(chunks: seq<Chunk>, buffers: map<Source, Bytes>, firsts: map<Source, Option<nat>>,
      observed: map<Source, int>, records: seq<StreamRecord>)
    requires Following(chunks, |chunks|, buffers, firsts, observed, records)
    ensures Stdout in buffers && Stderr in buffers && Stdout in firsts && Stderr in firsts && Stdout in observed && Stderr in observed
    ensures
      var n := |chunks|;
      var out := if buffers[Stdout] == [] then []
                 else [StreamRecord(Stdout, if firsts[Stdout].Some? then firsts[Stdout].value else n, n, observed[Stdout], buffers[Stdout])];
      var err := if buffers[Stderr] == [] then []
                 else [StreamRecord(Stderr, if firsts[Stderr].Some? then firsts[Stderr].value else n, n, observed[Stderr], buffers[Stderr])];
      && PlayedBack(chunks) == Sort(records + (out + err))
  {
    hide Sort, Complete, Pending, Played, Buffered, First;
    var n := |chunks|;
    assert Played(chunks, n) + Tail(chunks, Stdout) + Tail(chunks, Stderr)
        == Played(chunks, n) + (Tail(chunks, Stdout) + Tail(chunks, Stderr));
  }
}
