/** The offline replay rebuilds exactly what was parsed live, and loses no byte. */
module Refinement {
  import opened Lines
  import opened Options
  import opened Capture
  import opened Playback

  // A complete, LF-terminated record of a line-oriented source.
  const IsLine: StreamRecord -> bool := (r: StreamRecord) => !r.source.Terminal? && FindLf(r.data) < |r.data|

  function Of(s: Source): StreamRecord -> bool { (r: StreamRecord) => r.source == s }

  function DataOf(records: seq<StreamRecord>): (data: seq<Bytes>)
    ensures |data| == |records|
  {
    seq(|records|, i requires 0 <= i < |records| => records[i].data)
  }

  // ---- order of the records before the sort

  lemma {:induction false} FirstIsEarlier(chunks: seq<Chunk>, s: Source, n: nat)
    requires n <= |chunks|
    ensures First(chunks, s, n).Some? ==> 1 <= First(chunks, s, n).value <= n
  {
    hide Complete, Pending, Arrived;
    if n > 0 { FirstIsEarlier(chunks, s, n - 1); }
  }

  lemma AppendedInOrder(chunks: seq<Chunk>, n: nat)
    requires 0 < n <= |chunks|
    ensures Ordered(Appended(chunks, n))
    ensures forall r | r in Appended(chunks, n) :: 1 <= r.first <= r.last == n && r.source == chunks[n - 1].source
  {
    hide Complete, Pending, Arrived;
    FirstIsEarlier(chunks, chunks[n - 1].source, n - 1);
  }

  lemma {:induction false} PlayedInOrder(chunks: seq<Chunk>, n: nat)
    requires n <= |chunks|
    ensures Ordered(Played(chunks, n))
    ensures forall r | r in Played(chunks, n) :: 1 <= r.first <= r.last <= n
  {
    hide Appended;
    if n > 0 {
      PlayedInOrder(chunks, n - 1);
      AppendedInOrder(chunks, n);
    }
  }

  // ---- the live records

  lemma {:induction false} SelectAll(xs: seq<StreamRecord>, p: StreamRecord -> bool, keep: bool)
    requires forall x | x in xs :: p(x) == keep
    ensures Select(xs, p) == if keep then xs else []
  {
    if xs != [] { SelectAll(xs[..|xs| - 1], p, keep); }
  }

  lemma NewAreLines(chunks: seq<Chunk>, n: nat)
    requires 0 < n <= |chunks|
    ensures forall r | r in NewRecords(chunks, n) :: IsLine(r) && r.source == chunks[n - 1].source
  {
    hide Complete, Pending;
    if !chunks[n - 1].source.Terminal? {
      forall k | 0 <= k < |Complete(Arrived(chunks, n))|
        ensures FindLf(Complete(Arrived(chunks, n))[k]) < |Complete(Arrived(chunks, n))[k]|
      {
        EachLineEnds(Arrived(chunks, n), k);
      }
    }
  }

  lemma AppendedLines(chunks: seq<Chunk>, n: nat)
    requires 0 < n <= |chunks|
    ensures Select(Appended(chunks, n), IsLine) == NewRecords(chunks, n)
  {
    hide Complete, Pending, Arrived;
    NewAreLines(chunks, n);
    SelectAll(Appended(chunks, n), IsLine, !chunks[n - 1].source.Terminal?);
  }

  lemma {:induction false} PlayedLines(chunks: seq<Chunk>, n: nat)
    requires n <= |chunks|
    ensures Select(Played(chunks, n), IsLine) == Emitted(chunks, n)
  {
    hide Select, Appended, NewRecords;
    if n == 0 {
      SelectAll([], IsLine, true);
    } else {
      PlayedLines(chunks, n - 1);
      AppendedLines(chunks, n);
      SelectPlus(Played(chunks, n - 1), Appended(chunks, n), IsLine);
    }
  }

  lemma TailIsNoLine(chunks: seq<Chunk>, s: Source)
    ensures forall r | r in Tail(chunks, s) :: !IsLine(r) && r.source == s && s != Terminal
  {
    hide Pending;
    PendingHasNoLine(Joined(chunks, s, |chunks|));
  }

  // The complete records of the replay are those parsed live: the same bytes,
  // the same raw references, in the same order.
  lemma LiveIsReplayed(chunks: seq<Chunk>)
    ensures Select(PlayedBack(chunks), IsLine) == Emitted(chunks, |chunks|)
  {
    hide Complete, Pending, Arrived, Played, Emitted, Sort, Tail;
    var n := |chunks|;
    var played := Played(chunks, n);
    var out, err := Tail(chunks, Stdout), Tail(chunks, Stderr);
    PlayedInOrder(chunks, n);
    TailIsNoLine(chunks, Stdout);
    TailIsNoLine(chunks, Stderr);
    SortKeeps(played + out + err, IsLine);
    SelectPlus(played + out, err, IsLine);
    SelectPlus(played, out, IsLine);
    SelectAll(out, IsLine, false);
    SelectAll(err, IsLine, false);
    PlayedLines(chunks, n);
  }

  // As long as nothing was dropped, the records the recorder handed to the
  // adapter are the complete records of its own stream file.
  lemma RecorderIsReplayed(input: seq<Chunk>, limit: nat)
    requires |Flat(input, |input|)| <= limit && forall i | 0 <= i < |input| :: input[i].data != []
    ensures
      var stream := Stored(input, limit, |input|);
      NumberedStream(stream) && Select(PlayedBack(Chunks(stream)), IsLine) == Emitted(input, |input|)
  {
    hide PlayedBack, Stored, Emitted;
    StoredWhole(input, limit, |input|);
    StoredIsNumbered(input, limit, |input|);
    assert input[..|input|] == input;
    LiveIsReplayed(input);
  }

  // ---- bytes per source

  lemma DataPlus(xs: seq<StreamRecord>, ys: seq<StreamRecord>)
    ensures DataOf(xs + ys) == DataOf(xs) + DataOf(ys)
  {
  }

  lemma AppendedOf(chunks: seq<Chunk>, n: nat, s: Source)
    requires 0 < n <= |chunks|
    ensures Select(Appended(chunks, n), Of(s)) == if chunks[n - 1].source == s then Appended(chunks, n) else []
    ensures !s.Terminal? && chunks[n - 1].source == s ==> DataOf(Appended(chunks, n)) == Complete(Arrived(chunks, n))
    ensures chunks[n - 1].source.Terminal? ==> DataOf(Appended(chunks, n)) == [chunks[n - 1].data]
  {
    hide Complete, Pending, Arrived;
    AppendedInOrder(chunks, n);
    SelectAll(Appended(chunks, n), Of(s), chunks[n - 1].source == s);
  }

  lemma ArrivedIs(chunks: seq<Chunk>, n: nat)
    requires 0 < n <= |chunks| && !chunks[n - 1].source.Terminal?
    ensures Arrived(chunks, n) == Pending(Joined(chunks, chunks[n - 1].source, n - 1)) + chunks[n - 1].data
  {
  }

  // The record bytes of a source depend on the concatenation of its input
  // only, not on where the reads cut it.
  lemma {:induction false} RecordsOfSource(chunks: seq<Chunk>, s: Source, n: nat)
    requires n <= |chunks| && !s.Terminal?
    ensures DataOf(Select(Played(chunks, n), Of(s))) == Complete(Joined(chunks, s, n))
  {
    hide Complete, Pending, Arrived, Appended, Of;
    if n == 0 {
      CutOne([]);
    } else {
      RecordsOfSource(chunks, s, n - 1);
      AppendedOf(chunks, n, s);
      SelectPlus(Played(chunks, n - 1), Appended(chunks, n), Of(s));
      DataPlus(Select(Played(chunks, n - 1), Of(s)), Select(Appended(chunks, n), Of(s)));
      if chunks[n - 1].source == s {
        FeedInParts(Joined(chunks, s, n - 1), chunks[n - 1].data);
        ArrivedIs(chunks, n);
      } else {
        assert Joined(chunks, s, n - 1) + [] == Joined(chunks, s, n - 1);
      }
    }
  }

  lemma {:induction false} TerminalRecords(chunks: seq<Chunk>, n: nat)
    requires n <= |chunks|
    ensures Concat(DataOf(Select(Played(chunks, n), Of(Terminal)))) == Joined(chunks, Terminal, n)
  {
    hide Appended, Of, Select;
    if n == 0 {
      SelectAll([], Of(Terminal), true);
    } else {
      TerminalRecords(chunks, n - 1);
      AppendedOf(chunks, n, Terminal);
      SelectPlus(Played(chunks, n - 1), Appended(chunks, n), Of(Terminal));
      var before, step := Select(Played(chunks, n - 1), Of(Terminal)), Select(Appended(chunks, n), Of(Terminal));
      DataPlus(before, step);
      ConcatPlus(DataOf(before), DataOf(step));
      if chunks[n - 1].source.Terminal? { OneLine(chunks[n - 1].data); }
    }
  }

  lemma OneLine(data: Bytes)
    ensures Concat([data]) == data
  {
    assert [data][1..] == [];
  }

  // ---- the sort keeps every source in order

  lemma TailIsLast(chunks: seq<Chunk>, s: Source)
    ensures forall r, x | r in Played(chunks, |chunks|) && r.source == s && x in Tail(chunks, s) :: Leq(r, x)
  {
    hide Complete, Pending, Played;
    var n := |chunks|;
    PlayedInOrder(chunks, n);
    forall r, x | r in Played(chunks, n) && r.source == s && x in Tail(chunks, s) ensures Leq(r, x) {
      if r.last == n {
        LastIsNew(chunks, r);
        TailStart(chunks, s, r);
      }
    }
  }

  lemma LastIsNew(chunks: seq<Chunk>, r: StreamRecord)
    requires r in Played(chunks, |chunks|) && r.last == |chunks| && !r.source.Terminal?
    ensures |chunks| > 0 && r in NewRecords(chunks, |chunks|)
  {
    hide NewRecords;
    var n := |chunks|;
    if n > 0 { PlayedInOrder(chunks, n - 1); }
  }

  // The last chunk completed a record of the source: what is left began in it.
  lemma TailStart(chunks: seq<Chunk>, s: Source, r: StreamRecord)
    requires |chunks| > 0 && r in NewRecords(chunks, |chunks|) && r.source == s && Tail(chunks, s) != []
    ensures First(chunks, s, |chunks|) == Some(|chunks|)
  {
    hide Complete, Pending, Joined;
    ReplayStep(chunks, |chunks| - 1, s);
  }

  lemma SourceInOrder(chunks: seq<Chunk>, s: Source)
    ensures
      var all := Played(chunks, |chunks|) + Tail(chunks, Stdout) + Tail(chunks, Stderr);
      Select(Sort(all), Of(s)) == Select(all, Of(s))
  {
    hide Complete, Pending, Played, Tail, Leq, Sort, Select;
    PlayedInOrder(chunks, |chunks|);
    TailIsNoLine(chunks, Stdout);
    TailIsNoLine(chunks, Stderr);
    TailIsLast(chunks, s);
    OneTail(chunks, Stdout);
    OneTail(chunks, Stderr);
    var all := Played(chunks, |chunks|) + Tail(chunks, Stdout) + Tail(chunks, Stderr);
    forall i, j | 0 <= i < j < |all| && Of(s)(all[i]) && Of(s)(all[j]) ensures Leq(all[i], all[j]) {
      assert all[i].source == s && all[j].source == s;
    }
    SortKeeps(all, Of(s));
  }

  lemma OneTail(chunks: seq<Chunk>, s: Source)
    ensures |Tail(chunks, s)| <= 1
  {
  }

  lemma SourceSelected(chunks: seq<Chunk>, s: Source)
    ensures Select(PlayedBack(chunks), Of(s))
         == Select(Played(chunks, |chunks|), Of(s)) + (if s.Terminal? then [] else Tail(chunks, s))
  {
    hide Complete, Pending, Played, Sort, Tail, Select, Of;
    var played, out, err := Played(chunks, |chunks|), Tail(chunks, Stdout), Tail(chunks, Stderr);
    SourceInOrder(chunks, s);
    SelectPlus(played + out, err, Of(s));
    SelectPlus(played, out, Of(s));
    TailSelected(chunks, Stdout, s);
    TailSelected(chunks, Stderr, s);
  }

  lemma TailSelected(chunks: seq<Chunk>, t: Source, s: Source)
    requires !t.Terminal?
    ensures Select(Tail(chunks, t), Of(s)) == if t == s then Tail(chunks, t) else []
  {
    TailIsNoLine(chunks, t);
    SelectAll(Tail(chunks, t), Of(s), t == s);
  }

  // Put together, the replayed records of a source are the bytes of that source.
  lemma NothingIsLost(chunks: seq<Chunk>, s: Source)
    ensures Concat(DataOf(Select(PlayedBack(chunks), Of(s)))) == Joined(chunks, s, |chunks|)
  {
    hide Complete, Pending, Played, PlayedBack, Tail, Select, Of;
    var n := |chunks|;
    var mine := Select(Played(chunks, n), Of(s));
    var tail := if s.Terminal? then [] else Tail(chunks, s);
    SourceSelected(chunks, s);
    DataPlus(mine, tail);
    ConcatPlus(DataOf(mine), DataOf(tail));
    if s.Terminal? {
      TerminalRecords(chunks, n);
    } else {
      RecordsOfSource(chunks, s, n);
      CutsNothing(Joined(chunks, s, n));
      TailBytes(chunks, s);
    }
  }

  lemma TailBytes(chunks: seq<Chunk>, s: Source)
    requires !s.Terminal?
    ensures Concat(DataOf(Tail(chunks, s))) == Pending(Joined(chunks, s, |chunks|))
  {
    hide Complete, Pending;
    var t := Tail(chunks, s);
    if t != [] {
      assert DataOf(t) == [t[0].data];
      assert Concat([t[0].data]) == t[0].data + Concat([]);
    }
  }

  // _archived_stderr
  function ArchivedStderr(chunks: seq<Chunk>): Bytes { Concat(DataOf(Select(PlayedBack(chunks), Of(Stderr)))) }

  // stderr.log is what the replay finds in the stream, truncated or not.
  lemma StderrMatches(stream: seq<Envelope>)
    ensures ArchivedStderr(Chunks(stream)) == Joined(Chunks(stream), Stderr, |stream|)
  {
    NothingIsLost(Chunks(stream), Stderr);
  }

  // ---- raw references: the chunks that hold a record's first and last byte

  // Byte number `off` of the source lies in chunk `first`.
  predicate HoldsByte(chunks: seq<Chunk>, s: Source, off: nat, first: nat) {
    1 <= first <= |chunks| && |Joined(chunks, s, first - 1)| <= off < |Joined(chunks, s, first)|
  }

  // Byte number `off` comes no earlier than chunk `first`, and lies in it
  // exactly if that chunk is not empty.
  predicate OpensAt(chunks: seq<Chunk>, s: Source, off: nat, first: nat) {
    && 1 <= first <= |chunks| && |Joined(chunks, s, first - 1)| <= off
    && (off < |Joined(chunks, s, first)| <==> chunks[first - 1].data != [])
  }

  // The bytes of a source that complete records account for.
  function Consumed(chunks: seq<Chunk>, s: Source, n: nat): int
    requires n <= |chunks| && !s.Terminal?
  {
    |Joined(chunks, s, n)| - |Pending(Joined(chunks, s, n))|
  }

  lemma {:induction false} JoinedSteps(chunks: seq<Chunk>, s: Source, n: nat)
    requires 0 < n <= |chunks|
    ensures |Joined(chunks, s, n)| == |Joined(chunks, s, n - 1)| + (if chunks[n - 1].source == s then |chunks[n - 1].data| else 0)
  {
  }

  // What arrives is what was buffered, which holds no newline, and the chunk.
  lemma ArrivedParts(chunks: seq<Chunk>, n: nat)
    requires 0 < n <= |chunks| && !chunks[n - 1].source.Terminal?
    ensures
      var s, a := chunks[n - 1].source, Arrived(chunks, n);
      var kept := |Pending(Joined(chunks, s, n - 1))|;
      && |a| == kept + |chunks[n - 1].data|
      && FindLf(a) >= kept
      && Pending(Joined(chunks, s, n)) == Pending(a)
      && |Joined(chunks, s, n)| == |Joined(chunks, s, n - 1)| + |chunks[n - 1].data|
  {
    hide Complete, Pending, FindLf;
    var s := chunks[n - 1].source;
    PendingHasNoLine(Joined(chunks, s, n - 1));
    ArrivedIs(chunks, n);
    FindInSum(Pending(Joined(chunks, s, n - 1)), chunks[n - 1].data);
    FeedInParts(Joined(chunks, s, n - 1), chunks[n - 1].data);
  }

  lemma {:induction false} LinesBefore(lines: seq<Bytes>, k: nat)
    requires k < |lines|
    ensures |Concat(lines[..k + 1])| == |Concat(lines[..k])| + |lines[k]|
    ensures k > 0 ==> |Concat(lines[..k])| >= |lines[0]|
    ensures |Concat(lines[..k + 1])| <= |Concat(lines)|
  {
    assert lines[..k + 1] == lines[..k] + [lines[k]];
    ConcatPlus(lines[..k], [lines[k]]);
    OneLine(lines[k]);
    ConcatPlus(lines[..k + 1], lines[k + 1..]);
    assert lines[..k + 1] + lines[k + 1..] == lines;
    if k > 0 { assert lines[..k] == [lines[0]] + lines[1..k]; }
  }

  // The first record an arrived buffer completes ends in the newest chunk.
  lemma FirstLineLong(chunks: seq<Chunk>, n: nat)
    requires 0 < n <= |chunks| && !chunks[n - 1].source.Terminal? && Complete(Arrived(chunks, n)) != []
    ensures |Complete(Arrived(chunks, n))[0]| > |Pending(Joined(chunks, chunks[n - 1].source, n - 1))|
  {
    hide Complete, Pending, FindLf;
    ArrivedParts(chunks, n);
    CutOne(Arrived(chunks, n));
  }

  // The buffered record began in the chunk noted for it.
  lemma {:induction false} FirstOpens(chunks: seq<Chunk>, s: Source, n: nat)
    requires n <= |chunks| && !s.Terminal?
    ensures Pending(Joined(chunks, s, n)) != [] ==> First(chunks, s, n).Some?
    ensures Consumed(chunks, s, n) >= 0
    ensures First(chunks, s, n).Some? ==>
              First(chunks, s, n).value <= n && OpensAt(chunks, s, Consumed(chunks, s, n), First(chunks, s, n).value)
  {
    hide Complete, Pending, FindLf, Arrived;
    if n == 0 {
      CutOne([]);
    } else {
      FirstOpens(chunks, s, n - 1);
      JoinedSteps(chunks, s, n);
      if chunks[n - 1].source == s {
        FirstStep(chunks, n);
      } else {
        assert Joined(chunks, s, n - 1) + [] == Joined(chunks, s, n - 1);
      }
    }
  }

  lemma FirstStep(chunks: seq<Chunk>, n: nat)
    requires 0 < n <= |chunks| && !chunks[n - 1].source.Terminal?
    requires
      var s := chunks[n - 1].source;
      && (Pending(Joined(chunks, s, n - 1)) != [] ==> First(chunks, s, n - 1).Some?)
      && Consumed(chunks, s, n - 1) >= 0
      && (First(chunks, s, n - 1).Some? ==>
            First(chunks, s, n - 1).value <= n - 1 && OpensAt(chunks, s, Consumed(chunks, s, n - 1), First(chunks, s, n - 1).value))
    ensures
      var s := chunks[n - 1].source;
      && (Pending(Joined(chunks, s, n)) != [] ==> First(chunks, s, n).Some?)
      && Consumed(chunks, s, n) >= 0
      && (First(chunks, s, n).Some? ==>
            First(chunks, s, n).value <= n && OpensAt(chunks, s, Consumed(chunks, s, n), First(chunks, s, n).value))
    ensures OpensAt(chunks, chunks[n - 1].source, Consumed(chunks, chunks[n - 1].source, n - 1), Opened(chunks, n))
  {
    hide Complete, Pending, FindLf, Arrived;
    var s, a := chunks[n - 1].source, Arrived(chunks, n);
    ArrivedParts(chunks, n);
    CutsNothing(a);
    CutOne(a);
    if Complete(a) != [] {
      FirstLineLong(chunks, n);
      LinesBefore(Complete(a), 0);
      assert Complete(a)[..0] == [] && Complete(a)[..1] == [Complete(a)[0]];
    }
  }

  // Every record a chunk completes lies where its reference says.
  lemma NewHoldBytes(chunks: seq<Chunk>, n: nat, k: nat)
    requires 0 < n <= |chunks| && !chunks[n - 1].source.Terminal? && k < |NewRecords(chunks, n)|
    ensures Consumed(chunks, chunks[n - 1].source, n - 1) >= 0
    ensures
      var s, r := chunks[n - 1].source, NewRecords(chunks, n)[k];
      var off := Consumed(chunks, s, n - 1) + |Concat(Complete(Arrived(chunks, n))[..k])|;
      && r.data == Complete(Arrived(chunks, n))[k] && r.data != []
      && OpensAt(chunks, s, off, r.first) && HoldsByte(chunks, s, off + |r.data| - 1, r.last)
  {
    hide Complete, Pending, FindLf, Arrived, First, Opened;
    var s, a := chunks[n - 1].source, Arrived(chunks, n);
    FirstOpens(chunks, s, n - 1);
    FirstStep(chunks, n);
    ArrivedParts(chunks, n);
    CutsNothing(a);
    FirstLineLong(chunks, n);
    LinesBefore(Complete(a), k);
    EachLineEnds(a, k);
    LinesBefore(Complete(a), 0);
    assert Complete(a)[..0] == [] && Complete(a)[..1] == [Complete(a)[0]];
  }

  // The k-th record of one source begins behind the bytes of those before it.
  predicate Placed(chunks: seq<Chunk>, s: Source, mine: seq<StreamRecord>, k: nat)
    requires k < |mine|
  {
    var off := |Concat(DataOf(mine[..k]))|;
    && OpensAt(chunks, s, off, mine[k].first) && mine[k].first <= mine[k].last <= |chunks|
    && (if mine[k].data == [] then s.Terminal? else HoldsByte(chunks, s, off + |mine[k].data| - 1, mine[k].last))
  }

  lemma ConsumedIs(chunks: seq<Chunk>, s: Source, n: nat)
    requires n <= |chunks|
    ensures |Concat(DataOf(Select(Played(chunks, n), Of(s))))|
         == if s.Terminal? then |Joined(chunks, s, n)| else Consumed(chunks, s, n)
  {
    hide Complete, Pending, Played, Select, Of;
    if s.Terminal? {
      TerminalRecords(chunks, n);
    } else {
      RecordsOfSource(chunks, s, n);
      CutsNothing(Joined(chunks, s, n));
    }
  }

  lemma {:induction false} PlayedPlaced(chunks: seq<Chunk>, s: Source, n: nat)
    requires n <= |chunks|
    ensures forall k | 0 <= k < |Select(Played(chunks, n), Of(s))| :: Placed(chunks, s, Select(Played(chunks, n), Of(s)), k)
  {
    hide Select, Of, Appended, Placed;
    if n == 0 {
      SelectAll([], Of(s), true);
    } else {
      PlayedPlaced(chunks, s, n - 1);
      AppendedOf(chunks, n, s);
      SelectPlus(Played(chunks, n - 1), Appended(chunks, n), Of(s));
      var before := Select(Played(chunks, n - 1), Of(s));
      var mine := Select(Played(chunks, n), Of(s));
      forall k | 0 <= k < |mine| ensures Placed(chunks, s, mine, k) {
        if k < |before| {
          StillPlaced(chunks, s, before, mine, k);
        } else {
          NewPlaced(chunks, s, n, before, k - |before|);
          assert before + Appended(chunks, n) == mine;
        }
      }
    }
  }

  lemma StillPlaced(chunks: seq<Chunk>, s: Source, before: seq<StreamRecord>, mine: seq<StreamRecord>, k: nat)
    requires k < |before| <= |mine| && mine[..|before|] == before && Placed(chunks, s, before, k)
    ensures Placed(chunks, s, mine, k)
  {
    assert mine[..k] == before[..k] && mine[k] == before[k];
  }

  lemma NewPlaced(chunks: seq<Chunk>, s: Source, n: nat, before: seq<StreamRecord>, j: nat)
    requires 0 < n <= |chunks| && chunks[n - 1].source == s
    requires before == Select(Played(chunks, n - 1), Of(s)) && j < |Appended(chunks, n)|
    ensures Placed(chunks, s, before + Appended(chunks, n), |before| + j)
  {
    hide Select, Of, Complete, Pending, Arrived, Played, Opened;
    var added, mine := Appended(chunks, n), before + Appended(chunks, n);
    assert mine[..|before| + j] == before + added[..j] && mine[|before| + j] == added[j];
    DataPlus(before, added[..j]);
    ConcatPlus(DataOf(before), DataOf(added[..j]));
    ConsumedIs(chunks, s, n - 1);
    if s.Terminal? {
      JoinedSteps(chunks, s, n);
      assert DataOf(added[..j]) == [];
    } else {
      NewHoldBytes(chunks, n, j);
      PlacedInOrder(chunks, s, Consumed(chunks, s, n - 1) + |Concat(Complete(Arrived(chunks, n))[..j])|, added[j]);
      assert DataOf(added[..j]) == Complete(Arrived(chunks, n))[..j];
    }
  }

  lemma {:induction false} EmittedOf(chunks: seq<Chunk>, s: Source, n: nat)
    requires n <= |chunks|
    ensures Select(Emitted(chunks, n), Of(s)) == if s.Terminal? then [] else Select(Played(chunks, n), Of(s))
  {
    hide Select, Of, NewRecords;
    if n == 0 {
      SelectAll([], Of(s), true);
    } else {
      EmittedOf(chunks, s, n - 1);
      SelectPlus(Emitted(chunks, n - 1), NewRecords(chunks, n), Of(s));
      SelectPlus(Played(chunks, n - 1), Appended(chunks, n), Of(s));
      NewOf(chunks, s, n);
    }
  }

  lemma NewOf(chunks: seq<Chunk>, s: Source, n: nat)
    requires 0 < n <= |chunks|
    ensures Select(NewRecords(chunks, n), Of(s)) == if s.Terminal? then [] else Select(Appended(chunks, n), Of(s))
  {
    hide Complete, Pending, Arrived;
    if chunks[n - 1].source.Terminal? {
      AppendedOf(chunks, n, s);
    } else {
      AppendedOf(chunks, n, s);
      SelectAll(NewRecords(chunks, n), Of(s), chunks[n - 1].source == s);
    }
  }

  // The record parsed live as number k of its source: its last byte lies in the
  // chunk it names last, its first byte in the one it names first, unless that
  // chunk is empty; a recorder stores no such chunk.
  lemma LiveRecordsPlaced(chunks: seq<Chunk>, n: nat, s: Source, k: nat)
    requires n <= |chunks| && k < |Select(Emitted(chunks, n), Of(s))|
    ensures
      var mine := Select(Emitted(chunks, n), Of(s));
      var r, off := mine[k], |Concat(DataOf(mine[..k]))|;
      && 1 <= r.first <= r.last <= |chunks|
      && |Joined(chunks, s, r.first - 1)| <= off
      && (off < |Joined(chunks, s, r.first)| <==> chunks[r.first - 1].data != [])
      && |Joined(chunks, s, r.last - 1)| < off + |r.data| <= |Joined(chunks, s, r.last)|
  {
    hide Select, Of, Emitted, Played, Joined;
    EmittedOf(chunks, s, n);
    PlayedPlaced(chunks, s, n);
    var mine := Select(Emitted(chunks, n), Of(s));
    assert Placed(chunks, s, mine, k);
  }

  lemma PlacedInOrder(chunks: seq<Chunk>, s: Source, off: nat, r: StreamRecord)
    requires r.data != [] && OpensAt(chunks, s, off, r.first) && HoldsByte(chunks, s, off + |r.data| - 1, r.last)
    ensures r.first <= r.last
  {
    if r.last < r.first { JoinedGrows(chunks, s, r.last, r.first - 1); }
  }

  lemma {:induction false} JoinedGrows(chunks: seq<Chunk>, s: Source, a: nat, b: nat)
    requires a <= b <= |chunks|
    ensures |Joined(chunks, s, a)| <= |Joined(chunks, s, b)|
    decreases b
  {
    if a < b {
      JoinedSteps(chunks, s, b);
      JoinedGrows(chunks, s, a, b - 1);
    }
  }

  // So does every replayed record; of an unterminated one that is said of its
  // first byte.
  lemma ReplayedRecordsPlaced(chunks: seq<Chunk>, s: Source, k: nat)
    requires k < |Select(PlayedBack(chunks), Of(s))|
    ensures
      var mine := Select(PlayedBack(chunks), Of(s));
      var r, off := mine[k], |Concat(DataOf(mine[..k]))|;
      && 1 <= r.first <= r.last <= |chunks|
      && |Joined(chunks, s, r.first - 1)| <= off
      && (off < |Joined(chunks, s, r.first)| <==> chunks[r.first - 1].data != [])
      && (r.data != [] && (s.Terminal? || IsLine(r)) ==> |Joined(chunks, s, r.last - 1)| < off + |r.data| <= |Joined(chunks, s, r.last)|)
  {
    hide Select, Of, Played, PlayedBack, Tail, Joined, Complete, Pending;
    var n := |chunks|;
    SourceSelected(chunks, s);
    PlayedPlaced(chunks, s, n);
    var mine, played := Select(PlayedBack(chunks), Of(s)), Select(Played(chunks, n), Of(s));
    if k < |played| {
      assert Placed(chunks, s, played, k);
      StillPlaced(chunks, s, played, mine, k);
    } else {
      TailPlaced(chunks, s);
      ConsumedIs(chunks, s, n);
      OneTail(chunks, s);
      assert mine[..k] == played && mine[k] == Tail(chunks, s)[0];
      TailIsNoLine(chunks, s);
    }
  }

  lemma TailPlaced(chunks: seq<Chunk>, s: Source)
    requires !s.Terminal? && Tail(chunks, s) != []
    ensures Consumed(chunks, s, |chunks|) >= 0 && OpensAt(chunks, s, Consumed(chunks, s, |chunks|), Tail(chunks, s)[0].first)
    ensures Tail(chunks, s)[0].first <= Tail(chunks, s)[0].last == |chunks|
  {
    hide Complete, Pending, Joined;
    FirstOpens(chunks, s, |chunks|);
  }
}
