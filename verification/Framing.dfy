/** Length-prefixed records, and what the hashed bytes determine. */
module Framing {
  import opened Lines
  import opened Options

  const WIDTH: nat := 8
  const BOUND: nat := 0x1_0000_0000_0000_0000

  // int.to_bytes(width, "big")
  function BigEndian(n: nat, width: nat): (b: Bytes)
    ensures |b| == width
  {
    if width == 0 then [] else BigEndian(n / 256, width - 1) + [n % 256]
  }

  function Value(b: Bytes): nat {
    if b == [] then 0 else Value(b[..|b| - 1]) * 256 + b[|b| - 1]
  }

  function Span(width: nat): nat { if width == 0 then 1 else 256 * Span(width - 1) }

  lemma {:induction false} ValueOfBigEndian(n: nat, width: nat)
    requires n < Span(width)
    ensures Value(BigEndian(n, width)) == n
  {
    if width > 0 {
      ValueOfBigEndian(n / 256, width - 1);
      assert BigEndian(n, width)[..width - 1] == BigEndian(n / 256, width - 1);
    }
  }

  lemma {:induction false} BigEndianOfValue(b: Bytes)
    ensures Value(b) < Span(|b|) && BigEndian(Value(b), |b|) == b
  {
    if b != [] {
      var front := b[..|b| - 1];
      BigEndianOfValue(front);
      assert Value(b) / 256 == Value(front) && Value(b) % 256 == b[|b| - 1];
      assert b == front + [b[|b| - 1]];
    }
  }

  lemma BoundIsSpan()
    ensures Span(WIDTH) == BOUND
  {
    assert Span(4) == 256 * (256 * (256 * 256));
    assert Span(8) == 256 * (256 * (256 * (256 * Span(4))));
  }

  function Frame(fields: seq<Bytes>): Bytes {
    if fields == [] then [] else BigEndian(|fields[0]|, WIDTH) + fields[0] + Frame(fields[1..])
  }

  predicate Encodable(fields: seq<Bytes>) {
    forall i | 0 <= i < |fields| :: |fields[i]| < BOUND
  }

  lemma {:induction false} FramePlus(a: seq<Bytes>, b: seq<Bytes>)
    ensures Frame(a + b) == Frame(a) + Frame(b)
  {
    if a == [] {
      assert a + b == b;
    } else {
      FramePlus(a[1..], b);
      assert (a + b)[1..] == a[1..] + b;
    }
  }

  // _length_prefix
  method LengthPrefix(fields: seq<Bytes>) returns (result: Bytes)
    ensures result == Frame(fields)
  {
    result := [];
    var i := 0;
    while i < |fields|
      invariant 0 <= i <= |fields| && result == Frame(fields[..i])
    {
      assert fields[..i + 1] == fields[..i] + [fields[i]];
      FramePlus(fields[..i], [fields[i]]);
      OneFrame(fields[i]);
      result := result + BigEndian(|fields[i]|, WIDTH);
      result := result + fields[i];
      i := i + 1;
    }
    assert fields[..i] == fields;
  }

  lemma OneFrame(field: Bytes)
    ensures Frame([field]) == BigEndian(|field|, WIDTH) + field
  {
    assert [field][1..] == [];
    assert Frame([]) == [];
  }

  // ---- the inverse

  function Decode(s: Bytes): (r: Option<seq<Bytes>>)
    decreases |s|
  {
    if s == [] then Some([])
    else if |s| < WIDTH || |s| < WIDTH + Value(s[..WIDTH]) then None
    else
      var end := WIDTH + Value(s[..WIDTH]);
      match Decode(s[end..])
      case None => None
      case Some(rest) => Some([s[WIDTH..end]] + rest)
  }

  lemma DecodeOne(field: Bytes, rest: Bytes)
    requires |field| < BOUND
    ensures Decode(BigEndian(|field|, WIDTH) + field + rest)
         == match Decode(rest) case None => None case Some(fields) => Some([field] + fields)
  {
    hide BigEndian, Value, Span;
    var prefix := BigEndian(|field|, WIDTH);
    var s := prefix + field + rest;
    BoundIsSpan();
    ValueOfBigEndian(|field|, WIDTH);
    assert s[..WIDTH] == prefix;
    var end := WIDTH + |field|;
    assert s[WIDTH..end] == field;
    assert s[end..] == rest;
  }

  lemma {:induction false} DecodeFrame(fields: seq<Bytes>)
    requires Encodable(fields)
    ensures Decode(Frame(fields)) == Some(fields)
  {
    hide BigEndian, Decode;
    if fields == [] {
      DecodeNothing();
    } else {
      DecodeFrame(fields[1..]);
      DecodeOne(fields[0], Frame(fields[1..]));
      assert [fields[0]] + fields[1..] == fields;
    }
  }

  lemma DecodeNothing()
    ensures Decode([]) == Some([])
  {
  }

  lemma {:induction false} FrameDecode(s: Bytes)
    requires Decode(s).Some?
    ensures Frame(Decode(s).value) == s && Encodable(Decode(s).value)
    decreases |s|
  {
    if s != [] {
      var end := WIDTH + Value(s[..WIDTH]);
      FrameDecode(s[end..]);
      BigEndianOfValue(s[..WIDTH]);
      BoundIsSpan();
      var rest := Decode(s[end..]).value;
      assert ([s[WIDTH..end]] + rest)[1..] == rest;
      assert s == s[..WIDTH] + s[WIDTH..end] + s[end..];
    }
  }

  // Different field lists never share their framed bytes.
  lemma FrameIsInjective(a: seq<Bytes>, b: seq<Bytes>)
    requires Encodable(a) && Encodable(b) && Frame(a) == Frame(b)
    ensures a == b
  {
    DecodeFrame(a);
    DecodeFrame(b);
  }

  // ---- the business tree: one framed record of five fields per path

  const FIELDS: nat := 5

  predicate PathRecords(records: seq<seq<Bytes>>) {
    forall i | 0 <= i < |records| :: |records[i]| == FIELDS && Encodable(records[i])
  }

  function Fields(records: seq<seq<Bytes>>): seq<Bytes> {
    if records == [] then [] else records[0] + Fields(records[1..])
  }

  function TreeBytes(records: seq<seq<Bytes>>): Bytes {
    if records == [] then [] else Frame(records[0]) + TreeBytes(records[1..])
  }

  lemma {:induction false} TreeIsFrame(records: seq<seq<Bytes>>)
    requires PathRecords(records)
    ensures TreeBytes(records) == Frame(Fields(records)) && Encodable(Fields(records)) && |Fields(records)| == FIELDS * |records|
  {
    if records != [] {
      TreeIsFrame(records[1..]);
      FramePlus(records[0], Fields(records[1..]));
    }
  }

  lemma {:induction false} FieldsDetermine(a: seq<seq<Bytes>>, b: seq<seq<Bytes>>)
    requires PathRecords(a) && PathRecords(b) && Fields(a) == Fields(b) && |a| == |b|
    ensures a == b
  {
    if a != [] {
      assert Fields(a)[..FIELDS] == a[0] && Fields(b)[..FIELDS] == b[0];
      assert Fields(a)[FIELDS..] == Fields(a[1..]) && Fields(b)[FIELDS..] == Fields(b[1..]);
      FieldsDetermine(a[1..], b[1..]);
      assert a == [a[0]] + a[1..] && b == [b[0]] + b[1..];
    }
  }

  // Equal tree pre-images mean the same paths with the same classification,
  // type, mode and content digest, in the same order.
  lemma TreeDeterminesRecords(a: seq<seq<Bytes>>, b: seq<seq<Bytes>>)
    requires PathRecords(a) && PathRecords(b) && TreeBytes(a) == TreeBytes(b)
    ensures a == b
  {
    TreeIsFrame(a);
    TreeIsFrame(b);
    FrameIsInjective(Fields(a), Fields(b));
    FieldsDetermine(a, b);
  }

  // ---- the workspace state: HEAD (or "-"), status digest, tree digest

  const DIGEST: nat := 64

  predicate HeadBytes(head: Bytes) { |head| in {1, 40, 64} }

  lemma StateDeterminesParts(h1: Bytes, s1: Bytes, t1: Bytes, h2: Bytes, s2: Bytes, t2: Bytes)
    requires HeadBytes(h1) && HeadBytes(h2) && |s1| == |s2| == |t1| == |t2| == DIGEST
    requires h1 + s1 + t1 == h2 + s2 + t2
    ensures h1 == h2 && s1 == s2 && t1 == t2
  {
    var all := h1 + s1 + t1;
    assert |h1| == |all| - 2 * DIGEST == |h2|;
    assert all[..|h1|] == h1 && (h2 + s2 + t2)[..|h2|] == h2;
    assert all[|h1|..|h1| + DIGEST] == s1 && (h2 + s2 + t2)[|h2|..|h2| + DIGEST] == s2;
    assert all[|h1| + DIGEST..] == t1 && (h2 + s2 + t2)[|h2| + DIGEST..] == t2;
  }

  // ---- launch profiles: the interactive frame has one component more

  function ProfileFrame(components: seq<Bytes>, mode: Option<Bytes>): Bytes {
    Frame(if mode.Some? then components + [mode.value] else components)
  }

  lemma ModesNeverCoincide(headless: seq<Bytes>, interactive: seq<Bytes>, mode: Bytes)
    requires |headless| == |interactive| && Encodable(headless) && Encodable(interactive) && |mode| < BOUND
    ensures ProfileFrame(headless, None) != ProfileFrame(interactive, Some(mode))
  {
    DecodeFrame(headless);
    DecodeFrame(interactive + [mode]);
  }
}
