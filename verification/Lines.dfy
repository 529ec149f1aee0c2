/** Cutting a byte stream into LF-terminated records. */
module Lines {
  type Byte = b: int | 0 <= b < 256
  type Bytes = seq<Byte>
  const LF: Byte := 10

  // bytearray.find(b"\n"), with the length for "not found".
  function FindLf(s: Bytes): (i: nat)
    ensures i <= |s| && (i < |s| ==> s[i] == LF) && (forall j | 0 <= j < i :: s[j] != LF)
  {
    if s == [] then 0 else if s[0] == LF then 0 else 1 + FindLf(s[1..])
  }

  // The complete records at the front of a buffer, and what stays buffered.
  function Complete(s: Bytes): (lines: seq<Bytes>)
    decreases |s|
  {
    if FindLf(s) == |s| then [] else [s[..FindLf(s) + 1]] + Complete(s[FindLf(s) + 1..])
  }

  function Pending(s: Bytes): (rest: Bytes)
    decreases |s|
  {
    if FindLf(s) == |s| then s else Pending(s[FindLf(s) + 1..])
  }

  function Concat(lines: seq<Bytes>): Bytes {
    if lines == [] then [] else lines[0] + Concat(lines[1..])
  }

  lemma {:induction false} ConcatPlus(a: seq<Bytes>, b: seq<Bytes>)
    ensures Concat(a + b) == Concat(a) + Concat(b)
  {
    if a == [] {
      assert a + b == b;
    } else {
      ConcatPlus(a[1..], b);
      assert (a + b)[1..] == a[1..] + b;
    }
  }

  // Nothing is lost: records and rest put the buffer together again.
  lemma {:induction false} CutsNothing(s: Bytes)
    ensures Concat(Complete(s)) + Pending(s) == s
    decreases |s|
  {
    var i := FindLf(s);
    if i < |s| {
      CutsNothing(s[i + 1..]);
      var first := s[..i + 1];
      var rest := Complete(s[i + 1..]);
      assert Complete(s) == [first] + rest;
      assert ([first] + rest)[1..] == rest;
      assert s == first + s[i + 1..];
    }
  }

  lemma {:induction false} FindInSum(a: Bytes, b: Bytes)
    ensures FindLf(a + b) == if FindLf(a) < |a| then FindLf(a) else |a| + FindLf(b)
    decreases |a|
  {
    if a == [] {
      assert a + b == b;
    } else if a[0] != LF {
      FindInSum(a[1..], b);
      assert (a + b)[1..] == a[1..] + b;
    }
  }

  lemma {:induction false} CutOne(s: Bytes)
    ensures FindLf(s) < |s| ==> Complete(s) == [s[..FindLf(s) + 1]] + Complete(s[FindLf(s) + 1..])
    ensures FindLf(s) < |s| ==> Pending(s) == Pending(s[FindLf(s) + 1..])
    ensures FindLf(s) == |s| ==> Complete(s) == [] && Pending(s) == s
  {
    hide Complete, Pending;
    CutComplete(s);
    CutPending(s);
  }

  lemma {:induction false} CutComplete(s: Bytes)
    ensures Complete(s) == if FindLf(s) == |s| then [] else [s[..FindLf(s) + 1]] + Complete(s[FindLf(s) + 1..])
  {
    hide Pending, FindLf;
  }

  lemma {:induction false} CutPending(s: Bytes)
    ensures Pending(s) == if FindLf(s) == |s| then s else Pending(s[FindLf(s) + 1..])
  {
    hide Complete, FindLf;
  }

  // What stays buffered holds no complete record.
  lemma {:induction false} PendingHasNoLine(s: Bytes)
    ensures FindLf(Pending(s)) == |Pending(s)|
    decreases |s|
  {
    hide FindLf, Complete;
    CutPending(s);
    if FindLf(s) < |s| { PendingHasNoLine(s[FindLf(s) + 1..]); }
  }

  // Feeding a stream in two parts cuts the same records as feeding it at once.
  lemma {:induction false} FeedInParts(a: Bytes, b: Bytes)
    ensures Complete(a + b) == Complete(a) + Complete(Pending(a) + b)
    ensures Pending(a + b) == Pending(Pending(a) + b)
    decreases |a|
  {
    hide Complete, Pending;
    FindInSum(a, b);
    hide FindLf;
    CutOne(a);
    var i := FindLf(a);
    if i < |a| {
      CutOne(a + b);
      FeedInParts(a[i + 1..], b);
      assert (a + b)[..i + 1] == a[..i + 1];
      assert (a + b)[i + 1..] == a[i + 1..] + b;
    } else {
      assert Complete(a) + Complete(a + b) == Complete(a + b);
    }
  }

  lemma {:induction false} EachLineEnds(s: Bytes, k: nat)
    requires k < |Complete(s)|
    ensures Complete(s)[k] != [] && FindLf(Complete(s)[k]) == |Complete(s)[k]| - 1
    decreases |s|
  {
    var i := FindLf(s);
    if k == 0 {
      FindPrefix(s, i);
    } else {
      EachLineEnds(s[i + 1..], k - 1);
    }
  }

  lemma FindPrefix(s: Bytes, i: nat)
    requires i < |s| && FindLf(s) == i
    ensures FindLf(s[..i + 1]) == i
  {
    FindInSum(s[..i + 1], s[i + 1..]);
    assert s == s[..i + 1] + s[i + 1..];
  }
}
