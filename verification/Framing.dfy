/**
 Frames on the wire: the payload's length as a base-128 varint, the payload, and a newline. A
 reader gathers what arrives until it has seen a newline, parses one frame from the start of what
 it gathered, and throws the rest away with its buffer.
 */
module Framing {
  import opened Wrappers

  type Byte = n: nat | n < 256

  const NEWLINE: Byte := 10

  // ---------------------------------------------------------------- base-128 varints

  /** WriteVarint32: seven bits a byte, least significant first, the high bit on all but the last. */
  function Varint(n: nat): (r: seq<Byte>)
    ensures 0 < |r|
  {
    if n < 128 then [n] else [n % 128 + 128] + Varint(n / 128)
  }

  function Power128(k: nat): (p: nat)
    ensures 0 < p
  {
    if k == 0 then 1 else 128 * Power128(k - 1)
  }

  /**
   ReadVarint32: at most ten bytes, of which only the low 32 bits of the value count. k bytes worth
   acc have been read; the result is the value and the number of bytes read in all.
   */
  function ReadVarint(b: seq<Byte>, k: nat, acc: nat): (r: Option<(nat, nat)>)
    ensures r.Some? ==> k < r.value.1 <= k + |b|
    decreases |b|
  {
    if k == 10 || b == [] then None
    else
      var acc' := acc + (b[0] % 128) * Power128(k);
      if b[0] < 128 then Some((acc' % 0x1_0000_0000, k + 1)) else ReadVarint(b[1..], k + 1, acc')
  }

  lemma PowerStep(n: nat, k: nat)
    ensures (n % 128) * Power128(k) + (n / 128) * Power128(k + 1) == n * Power128(k)
  {
    var p := Power128(k);
    assert n == 128 * (n / 128) + n % 128;
    assert (n / 128) * (128 * p) == (128 * (n / 128)) * p;
    assert (n % 128) * p + (128 * (n / 128)) * p == (n % 128 + 128 * (n / 128)) * p;
  }

  /** Reading what was written gives the value back and stops after it, whatever follows. */
  lemma {:induction false} VarintRead(n: nat, rest: seq<Byte>, k: nat, acc: nat)
    requires k + |Varint(n)| <= 10
    ensures ReadVarint(Varint(n) + rest, k, acc)
         == Some(((acc + n * Power128(k)) % 0x1_0000_0000, k + |Varint(n)|))
    decreases n
  {
    var b := Varint(n) + rest;
    if n < 128 {
      assert b[0] == n;
    } else {
      assert b[0] == n % 128 + 128 && b[1..] == Varint(n / 128) + rest;
      assert b[0] % 128 == n % 128;
      VarintRead(n / 128, rest, k + 1, acc + (n % 128) * Power128(k));
      PowerStep(n, k);
    }
  }

  lemma VarintLength(n: nat)
    requires n < 0x1_0000_0000
    ensures |Varint(n)| <= 5
  {
    var a := n / 128;
    var b := a / 128;
    var c := b / 128;
    var d := c / 128;
    assert d < 128;
    assert |Varint(d)| == 1;
    assert |Varint(c)| <= 2;
    assert |Varint(b)| <= 3;
    assert |Varint(a)| <= 4;
  }

  /** The number that bytes of seven bits each stand for, the least significant first. */
  function SevenBits(b: seq<Byte>): nat
    decreases |b|
  {
    if b == [] then 0 else b[0] % 128 + 128 * SevenBits(b[1..])
  }

  /** Bytes that form one varint: all but the last say that more follow. */
  predicate OneVarint(b: seq<Byte>) {
    b != [] && b[|b| - 1] < 128 && forall i :: 0 <= i < |b| - 1 ==> 128 <= b[i]
  }

  /** A number is written as one varint that stands for it, and with no byte too many. */
  lemma {:induction false} VarintStandsFor(n: nat)
    ensures var b := Varint(n);
            OneVarint(b) && SevenBits(b) == n && (|b| > 1 ==> b[|b| - 1] != 0)
    decreases n
  {
    if n < 128 {
      assert SevenBits([n][1..]) == 0;
    } else {
      VarintStandsFor(n / 128);
      var b := Varint(n);
      assert b[1..] == Varint(n / 128);
      assert b[|b| - 1] == Varint(n / 128)[|b| - 2];
      assert forall i :: 0 <= i < |b| - 1 ==> 128 <= b[i];
    }
  }

  /** The Protocol Buffers documentation's example. */
  lemma VarintOf150()
    ensures Varint(150) == [0x96, 0x01]
  {
    assert Varint(1) == [1];
  }

  lemma SevenBitsSplit(b: seq<Byte>, n: nat)
    requires 0 < n <= |b|
    ensures SevenBits(b[..n]) == b[0] % 128 + 128 * SevenBits(b[1..][..n - 1])
  {
    assert b[..n][0] == b[0] && b[..n][1..] == b[1..][..n - 1];
  }

  /** The value after one byte more, taken with what follows it, is the value of both. */
  lemma ValueStep(b: seq<Byte>, n: nat, k: nat, acc: nat)
    requires 0 < n <= |b|
    ensures acc + SevenBits(b[..n]) * Power128(k)
         == (acc + (b[0] % 128) * Power128(k)) + SevenBits(b[1..][..n - 1]) * Power128(k + 1)
  {
    hide SevenBits, Power128;
    SevenBitsSplit(b, n);
    SevenBitsStep(b[0] % 128, SevenBits(b[1..][..n - 1]), k);
  }

  lemma NoBits()
    ensures SevenBits([]) == 0
  {
  }

  /** Reading k bytes on: the varint at the front, if it ends within the ten bytes allowed. */
  lemma {:induction false} ReadFrom(b: seq<Byte>, n: nat, k: nat, acc: nat)
    requires n <= |b| && OneVarint(b[..n]) && k <= 10
    ensures ReadVarint(b, k, acc)
         == if k + n <= 10 then Some(((acc + SevenBits(b[..n]) * Power128(k)) % 0x1_0000_0000, k + n)) else None
    decreases n
  {
    hide SevenBits, Power128;
    if k < 10 {
      ValueStep(b, n, k, acc);
      assert b[..n][0] == b[0] && b[..n][1..] == b[1..][..n - 1];
      if n == 1 {
        NoBits();
        assert b[1..][..0] == [] && b[..1][0] < 128;
      } else {
        assert 128 <= b[..n][0];
        OneVarintTail(b[..n]);
        ReadFrom(b[1..], n - 1, k + 1, acc + (b[0] % 128) * Power128(k));
      }
    }
  }

  lemma OneVarintTail(b: seq<Byte>)
    requires OneVarint(b) && |b| > 1
    ensures OneVarint(b[1..])
  {
  }

  lemma SevenBitsStep(d: nat, rest: nat, k: nat)
    ensures d * Power128(k) + rest * Power128(k + 1) == (d + 128 * rest) * Power128(k)
  {
    var p := Power128(k);
    assert rest * (128 * p) == (128 * rest) * p;
  }

  lemma {:induction false} NeverEnds(b: seq<Byte>, k: nat, acc: nat)
    requires k <= 10 && forall i :: 0 <= i < |b| && i < 10 - k ==> 128 <= b[i]
    ensures ReadVarint(b, k, acc).None?
    decreases |b|
  {
    if k < 10 && b != [] {
      assert 128 <= b[0] && forall i :: 0 <= i < |b[1..]| ==> b[1..][i] == b[i + 1];
      NeverEnds(b[1..], k + 1, acc + (b[0] % 128) * Power128(k));
    }
  }

  /**
   What is read from any bytes: the varint they start with, of which the low 32 bits count, when it
   has at most ten bytes; nothing when it has more or does not end.
   */
  lemma ReadVarintExactly(b: seq<Byte>)
    ensures forall n :: 0 < n <= |b| && OneVarint(b[..n]) ==>
              ReadVarint(b, 0, 0) == if n <= 10 then Some((SevenBits(b[..n]) % 0x1_0000_0000, n)) else None
    ensures (forall n :: 0 < n <= |b| && n <= 10 ==> !OneVarint(b[..n])) ==> ReadVarint(b, 0, 0).None?
  {
    assert Power128(0) == 1;
    forall n | 0 < n <= |b| && OneVarint(b[..n])
      ensures ReadVarint(b, 0, 0) == if n <= 10 then Some((SevenBits(b[..n]) % 0x1_0000_0000, n)) else None
    {
      ReadFrom(b, n, 0, 0);
    }
    if forall n :: 0 < n <= |b| && n <= 10 ==> !OneVarint(b[..n]) {
      NoVarintNoEnd(b, if |b| < 10 then |b| else 10);
      NeverEnds(b, 0, 0);
    }
  }

  lemma {:induction false} NoVarintNoEnd(b: seq<Byte>, m: nat)
    requires m <= |b| && forall n :: 0 < n <= m ==> !OneVarint(b[..n])
    ensures forall i :: 0 <= i < m ==> 128 <= b[i]
    decreases m
  {
    if m > 0 {
      NoVarintNoEnd(b, m - 1);
      assert !OneVarint(b[..m]);
      assert b[..m][m - 1] == b[m - 1];
    }
  }

  // ---------------------------------------------------------------- frames

  /** serialize; the length argument is 32 bits wide. */
  function Frame(payload: seq<Byte>): seq<Byte> {
    Varint(|payload| % 0x1_0000_0000) + payload + [NEWLINE]
  }

  /** For example: two bytes after their length and before a line feed. */
  lemma FrameOfTwo()
    ensures Frame([0x68, 0x69]) == [2, 0x68, 0x69, 10]
  {
    assert Varint(2) == [2];
  }

  /** What parse_packet makes of a buffer. Without a readable size the program's size is undefined. */
  datatype Parsed = Payload(bytes: seq<Byte>) | TooShort | NoSize

  function Parse(buffer: seq<Byte>): Parsed {
    match ReadVarint(buffer, 0, 0)
    case None => NoSize
    case Some((size, used)) =>
      if size <= |buffer| - used then Payload(buffer[used..used + size]) else TooShort
  }

  /** A frame at the start of a buffer is parsed to exactly its payload, whatever follows it. */
  lemma FrameRoundTrip(payload: seq<Byte>, rest: seq<Byte>)
    requires |payload| < 0x1_0000_0000
    ensures Parse(Frame(payload) + rest) == Payload(payload)
  {
    var prefix := Varint(|payload|);
    VarintLength(|payload|);
    assert Frame(payload) + rest == prefix + (payload + [NEWLINE] + rest);
    VarintRead(|payload|, payload + [NEWLINE] + rest, 0, 0);
    assert Power128(0) == 1;
  }

  // ---------------------------------------------------------------- reading until a newline

  /** read_until: takes chunks as they arrive until the buffer holds a newline. */
  function Gather(buffer: seq<Byte>, chunks: seq<seq<Byte>>): Option<(seq<Byte>, seq<seq<Byte>>)>
    decreases |chunks|
  {
    if NEWLINE in buffer then Some((buffer, chunks))
    else if chunks == [] then None
    else Gather(buffer + chunks[0], chunks[1..])
  }

  function Join(chunks: seq<seq<Byte>>): seq<Byte>
    decreases |chunks|
  {
    if chunks == [] then [] else chunks[0] + Join(chunks[1..])
  }

  /** Chunks that carry the bytes, none of them empty. */
  predicate Chunking(chunks: seq<seq<Byte>>, bytes: seq<Byte>) {
    Join(chunks) == bytes && forall i :: 0 <= i < |chunks| ==> chunks[i] != []
  }

  /** A newline before the last chunk. */
  predicate EarlyNewline(chunks: seq<seq<Byte>>) {
    exists i :: 0 <= i < |chunks| - 1 && NEWLINE in chunks[i]
  }

  lemma EarlyTail(chunks: seq<seq<Byte>>)
    requires |chunks| > 1 && !EarlyNewline(chunks)
    ensures NEWLINE !in chunks[0] && !EarlyNewline(chunks[1..])
  {
    assert forall i :: 0 <= i < |chunks[1..]| ==> chunks[1..][i] == chunks[i + 1];
  }

  lemma NewlineStays(buffer: seq<Byte>, chunk: seq<Byte>)
    ensures NEWLINE in chunk ==> NEWLINE in buffer + chunk
    ensures NEWLINE !in buffer && NEWLINE !in chunk ==> NEWLINE !in buffer + chunk
  {
    if i :| 0 <= i < |chunk| && chunk[i] == NEWLINE {
      assert (buffer + chunk)[|buffer| + i] == NEWLINE;
    }
  }

  /** Chunks whose first newline is in the last of them are gathered together, and no more. */
  lemma {:induction false} GatherAll(buffer: seq<Byte>, chunks: seq<seq<Byte>>, more: seq<seq<Byte>>)
    requires NEWLINE !in buffer
    requires chunks != [] && NEWLINE in chunks[|chunks| - 1] && !EarlyNewline(chunks)
    ensures Gather(buffer, chunks + more) == Some((buffer + Join(chunks), more))
    decreases |chunks|
  {
    hide EarlyNewline;
    var c, tail := chunks[0], chunks[1..];
    assert (chunks + more)[0] == c && (chunks + more)[1..] == tail + more;
    assert buffer + Join(chunks) == (buffer + c) + Join(tail);
    NewlineStays(buffer, c);
    if tail == [] {
      assert tail + more == more;
      assert (buffer + c) + Join(tail) == buffer + c;
    } else {
      EarlyTail(chunks);
      assert tail[|tail| - 1] == chunks[|chunks| - 1];
      GatherAll(buffer + c, tail, more);
    }
  }

  /** A newline in an earlier chunk stops the reader there. */
  lemma {:induction false} GatherStopsEarly(buffer: seq<Byte>, chunks: seq<seq<Byte>>)
    requires EarlyNewline(chunks)
    ensures Gather(buffer, chunks).Some? && |Gather(buffer, chunks).value.1| > 0
    decreases |chunks|
  {
    if NEWLINE !in buffer {
      var c, tail := chunks[0], chunks[1..];
      if NEWLINE in c {
        var i :| 0 <= i < |c| && c[i] == NEWLINE;
        assert (buffer + c)[|buffer| + i] == NEWLINE;
      } else {
        var i :| 0 <= i < |chunks| - 1 && NEWLINE in chunks[i];
        assert NEWLINE in tail[i - 1];
        GatherStopsEarly(buffer + c, tail);
      }
    }
  }

  /** The reader gathers the frame and nothing else. */
  predicate GathersFrame(payload: seq<Byte>, chunks: seq<seq<Byte>>) {
    Gather([], chunks) == Some((Frame(payload), []))
  }

  /** The last byte of what is sent is in the last chunk. */
  lemma {:induction false} LastOfJoin(chunks: seq<seq<Byte>>)
    requires chunks != [] && forall i :: 0 <= i < |chunks| ==> chunks[i] != []
    ensures var j := Join(chunks); var c := chunks[|chunks| - 1];
            |j| > 0 && |c| > 0 && j[|j| - 1] == c[|c| - 1]
    decreases |chunks|
  {
    if |chunks| > 1 {
      LastOfJoin(chunks[1..]);
    }
  }

  lemma FrameEndsInLastChunk(payload: seq<Byte>, chunks: seq<seq<Byte>>)
    requires Chunking(chunks, Frame(payload))
    ensures chunks != [] && NEWLINE in chunks[|chunks| - 1]
  {
    LastOfJoin(chunks);
  }

  /** However a frame is cut, it is gathered whole exactly when no chunk but the last has a newline byte. */
  lemma WholeExactlyWhen(payload: seq<Byte>, chunks: seq<seq<Byte>>)
    requires Chunking(chunks, Frame(payload))
    ensures GathersFrame(payload, chunks) <==> !EarlyNewline(chunks)
  {
    FrameEndsInLastChunk(payload, chunks);
    if EarlyNewline(chunks) {
      GatherStopsEarly([], chunks);
    } else {
      GatherAll([], chunks, []);
      assert chunks + [] == chunks && [] + Join(chunks) == Join(chunks);
    }
  }

  /** The bytes of a frame before its newline. */
  function Body(payload: seq<Byte>): seq<Byte> {
    Varint(|payload| % 0x1_0000_0000) + payload
  }

  lemma {:induction false} JoinHoldsChunk(chunks: seq<seq<Byte>>, i: nat)
    requires i + 1 < |chunks| && NEWLINE in chunks[i]
    requires forall i :: 0 <= i < |chunks| ==> chunks[i] != []
    ensures var j := Join(chunks); |j| > 0 && NEWLINE in j[..|j| - 1]
    decreases |chunks|
  {
    var c, rest := chunks[0], Join(chunks[1..]);
    LastOfJoin(chunks[1..]);
    var j := c + rest;
    assert j[..|j| - 1] == c + rest[..|rest| - 1];
    if i > 0 {
      JoinHoldsChunk(chunks[1..], i - 1);
    }
  }

  /**
   A frame is gathered whole however the network cuts it exactly when neither its length prefix nor
   its payload contains a newline byte.
   */
  lemma WholeExactlyWithoutNewline(payload: seq<Byte>)
    ensures NEWLINE !in Body(payload)
      <==> forall chunks :: Chunking(chunks, Frame(payload)) ==> GathersFrame(payload, chunks)
  {
    var body, f := Body(payload), Frame(payload);
    assert f == body + [NEWLINE] && f[..|f| - 1] == body;
    if NEWLINE !in body {
      forall chunks | Chunking(chunks, f)
        ensures GathersFrame(payload, chunks)
      {
        WholeExactlyWhen(payload, chunks);
        if EarlyNewline(chunks) {
          var i :| 0 <= i < |chunks| - 1 && NEWLINE in chunks[i];
          JoinHoldsChunk(chunks, i);
        }
      }
    } else {
      var i :| 0 <= i < |body| && body[i] == NEWLINE;
      CutAtNewline(f, i);
      var chunks := [f[..i + 1], f[i + 1..]];
      WholeExactlyWhen(payload, chunks);
      assert Chunking(chunks, f) && !GathersFrame(payload, chunks);
    }
  }

  lemma CutAtNewline(f: seq<Byte>, i: nat)
    requires i + 1 < |f| && f[i] == NEWLINE
    ensures Chunking([f[..i + 1], f[i + 1..]], f) && EarlyNewline([f[..i + 1], f[i + 1..]])
  {
    var first, second := f[..i + 1], f[i + 1..];
    var chunks := [first, second];
    assert chunks[1..] == [second];
    assert Join([second]) == second;
    assert first + second == f;
    assert chunks[0][i] == NEWLINE;
  }

  /** A payload of ten bytes is one whose frame can be cut short: its length is the newline byte. */
  lemma TenByteFrameCanBeCut(payload: seq<Byte>)
    requires |payload| == 10
    ensures NEWLINE in Body(payload)
    ensures exists chunks :: Chunking(chunks, Frame(payload)) && !GathersFrame(payload, chunks)
  {
    assert Body(payload)[0] == NEWLINE;
    WholeExactlyWithoutNewline(payload);
  }

  // ---------------------------------------------------------------- the connection loop

  /** handle_connection: every round starts with an empty buffer, so the rest of a chunk is lost. */
  function Serve(chunks: seq<seq<Byte>>): seq<Parsed>
    decreases |chunks|
  {
    match Gather([], chunks)
    case None => []
    case Some((buffer, more)) =>
      if |more| < |chunks| then [Parse(buffer)] + Serve(more) else []
  }

  function Flatten(groups: seq<seq<seq<Byte>>>): seq<seq<Byte>>
    decreases |groups|
  {
    if groups == [] then [] else groups[0] + Flatten(groups[1..])
  }

  /** A frame cut into chunks of its own, with no newline before the last of them. */
  predicate Aligned(payload: seq<Byte>, chunks: seq<seq<Byte>>) {
    |payload| < 0x1_0000_0000 && Chunking(chunks, Frame(payload)) && !EarlyNewline(chunks)
  }

  /** When no chunk carries bytes of two frames and each frame is gathered whole, all arrive in order. */
  lemma {:induction false} AlignedFramesArrive(payloads: seq<seq<Byte>>, groups: seq<seq<seq<Byte>>>)
    requires |groups| == |payloads|
    requires forall i :: 0 <= i < |payloads| ==> Aligned(payloads[i], groups[i])
    ensures |Serve(Flatten(groups))| == |payloads|
    ensures forall i :: 0 <= i < |payloads| ==> Serve(Flatten(groups))[i] == Payload(payloads[i])
    decreases |payloads|
  {
    if payloads != [] {
      var p, g, more := payloads[0], groups[0], Flatten(groups[1..]);
      FrameEndsInLastChunk(p, g);
      GatherAll([], g, more);
      assert [] + Join(g) == Frame(p);
      FrameRoundTrip(p, []);
      assert Frame(p) + [] == Frame(p);
      AlignedFramesArrive(payloads[1..], groups[1..]);
    }
  }

  // ---------------------------------------------------------------- streams of frames

  /** A payload whose frame has one newline, at its end. */
  predicate Clean(payload: seq<Byte>) {
    |payload| < 0x1_0000_0000 && NEWLINE !in Body(payload)
  }

  predicate AllClean(payloads: seq<seq<Byte>>) {
    forall i :: 0 <= i < |payloads| ==> Clean(payloads[i])
  }

  predicate Pieces(chunks: seq<seq<Byte>>) {
    forall i :: 0 <= i < |chunks| ==> chunks[i] != []
  }

  /** Frames one after the other. */
  function Stream(payloads: seq<seq<Byte>>): seq<Byte>
    decreases |payloads|
  {
    if payloads == [] then [] else Frame(payloads[0]) + Stream(payloads[1..])
  }

  /** What a reader that loses nothing makes of them. */
  function Parsings(payloads: seq<seq<Byte>>): seq<Parsed> {
    seq(|payloads|, i requires 0 <= i < |payloads| => Payload(payloads[i]))
  }

  /** No chunk goes on after a newline. */
  predicate EndsAtNewlines(chunks: seq<seq<Byte>>) {
    forall i, j :: 0 <= i < |chunks| && 0 <= j < |chunks[i]| - 1 ==> chunks[i][j] != NEWLINE
  }

  function Newlines(b: seq<Byte>): nat
    decreases |b|
  {
    if b == [] then 0 else (if b[0] == NEWLINE then 1 else 0) + Newlines(b[1..])
  }

  lemma {:induction false} NewlinesAppend(a: seq<Byte>, b: seq<Byte>)
    ensures Newlines(a + b) == Newlines(a) + Newlines(b)
    decreases |a|
  {
    if a == [] {
      assert a + b == b;
    } else {
      assert (a + b)[0] == a[0] && (a + b)[1..] == a[1..] + b;
      NewlinesAppend(a[1..], b);
    }
  }

  lemma {:induction false} NewlinesNone(b: seq<Byte>)
    ensures Newlines(b) == 0 <==> NEWLINE !in b
    decreases |b|
  {
    if b != [] {
      NewlinesNone(b[1..]);
      assert b == [b[0]] + b[1..];
    }
  }

  lemma NewlinesFrame(payload: seq<Byte>)
    requires Clean(payload)
    ensures Newlines(Frame(payload)) == 1
  {
    NewlinesNone(Body(payload));
    NewlinesAppend(Body(payload), [NEWLINE]);
    assert Frame(payload) == Body(payload) + [NEWLINE];
  }

  lemma {:induction false} NewlinesStream(payloads: seq<seq<Byte>>)
    requires AllClean(payloads)
    ensures Newlines(Stream(payloads)) == |payloads|
    decreases |payloads|
  {
    if payloads != [] {
      NewlinesFrame(payloads[0]);
      NewlinesStream(payloads[1..]);
      NewlinesAppend(Frame(payloads[0]), Stream(payloads[1..]));
    }
  }

  /** One round of the reader: it takes the chunks up to the first one with a newline. */
  lemma {:induction false} GatherRound(buffer: seq<Byte>, chunks: seq<seq<Byte>>) returns (n: nat)
    requires NEWLINE !in buffer && NEWLINE in Join(chunks)
    ensures 0 < n <= |chunks| && NEWLINE in chunks[n - 1] && !EarlyNewline(chunks[..n])
    ensures Gather(buffer, chunks) == Some((buffer + Join(chunks[..n]), chunks[n..]))
    ensures Join(chunks) == Join(chunks[..n]) + Join(chunks[n..])
    decreases |chunks|
  {
    var c, tail := chunks[0], chunks[1..];
    if NEWLINE in c {
      n := 1;
      assert chunks[..1] == [c] && Join([c]) == c;
      var i :| 0 <= i < |c| && c[i] == NEWLINE;
      assert (buffer + c)[|buffer| + i] == NEWLINE;
    } else {
      n := GatherRound(buffer + c, tail);
      assert chunks[..n + 1][0] == c && chunks[..n + 1][1..] == tail[..n] && chunks[n + 1..] == tail[n..];
      assert buffer + c + Join(tail[..n]) == buffer + (c + Join(tail[..n]));
      n := n + 1;
    }
  }

  /** Nothing is served but at a newline. */
  lemma {:induction false} ServedAtNewlines(chunks: seq<seq<Byte>>)
    ensures |Serve(chunks)| <= Newlines(Join(chunks))
    decreases |chunks|
  {
    if NEWLINE in Join(chunks) {
      var n := GatherRound([], chunks);
      var first := Join(chunks[..n]);
      assert [] + first == first;
      NewlinesAppend(first, Join(chunks[n..]));
      NewlinesNone(first);
      NewlineInJoin(chunks[..n], n - 1);
      ServedAtNewlines(chunks[n..]);
    } else {
      NothingGathered([], chunks);
    }
  }

  lemma {:induction false} NewlineInJoin(chunks: seq<seq<Byte>>, i: nat)
    requires i < |chunks| && NEWLINE in chunks[i]
    ensures NEWLINE in Join(chunks)
    decreases |chunks|
  {
    if i > 0 {
      NewlineInJoin(chunks[1..], i - 1);
    }
  }

  lemma {:induction false} NothingGathered(buffer: seq<Byte>, chunks: seq<seq<Byte>>)
    requires NEWLINE !in buffer && NEWLINE !in Join(chunks)
    ensures Gather(buffer, chunks).None?
    decreases |chunks|
  {
    if chunks != [] {
      assert forall x :: x in chunks[0] ==> x in Join(chunks);
      assert forall x :: x in Join(chunks[1..]) ==> x in Join(chunks);
      NothingGathered(buffer + chunks[0], chunks[1..]);
    }
  }

  // ---------------------------------------------------------------- a frame whose head is lost

  lemma {:induction false} VarintNoLonger(n: nat, k: nat)
    requires 0 < k && n < Power128(k)
    ensures |Varint(n)| <= k
    decreases k
  {
    if n >= 128 {
      assert Power128(1) == 128 * Power128(0) == 128;
      assert n / 128 < Power128(k - 1);
      VarintNoLonger(n / 128, k - 1);
    }
  }

  lemma DigitTimes(d: nat, p: nat)
    requires d < 128
    ensures d * p <= 127 * p
  {
    assert 127 * p - d * p == (127 - d) * p;
  }

  lemma DigitBelow(acc: nat, d: nat, k: nat)
    requires acc < Power128(k) && d < 128
    ensures acc + d * Power128(k) < Power128(k + 1)
  {
    DigitTimes(d, Power128(k));
  }

  lemma LowBitsNoLonger(n: nat, k: nat)
    requires 0 < k && n < Power128(k)
    ensures |Varint(n % 0x1_0000_0000)| <= k
  {
    VarintNoLonger(n % 0x1_0000_0000, k);
  }

  /** A value read from some bytes needs no more of them to be written. */
  lemma {:induction false} ReadUsesEnough(b: seq<Byte>, k: nat, acc: nat)
    requires acc < Power128(k) && ReadVarint(b, k, acc).Some?
    ensures |Varint(ReadVarint(b, k, acc).value.0)| <= ReadVarint(b, k, acc).value.1
    decreases |b|
  {
    hide Varint, Power128;
    var next := acc + (b[0] % 128) * Power128(k);
    DigitBelow(acc, b[0] % 128, k);
    if b[0] < 128 {
      LowBitsNoLonger(next, k + 1);
    } else {
      ReadUsesEnough(b[1..], k + 1, next);
    }
  }

  /** A payload without a newline, parsed from bytes that end with one, ends before it. */
  lemma ParsedBeforeLast(x: seq<Byte>, payload: seq<Byte>)
    requires x != [] && x[|x| - 1] == NEWLINE && NEWLINE !in payload && payload != []
    requires Parse(x) == Payload(payload)
    ensures |Varint(|payload|)| + |payload| < |x|
  {
    hide Varint, ReadVarint;
    assert Power128(0) == 1;
    ReadUsesEnough(x, 0, 0);
    var (size, used) := ReadVarint(x, 0, 0).value;
    assert payload[size - 1] == x[used + size - 1];
  }

  /** What is left of a frame without its head is not parsed to its payload. */
  lemma HeadlessNotParsed(payload: seq<Byte>, k: nat)
    requires Clean(payload) && 0 < k < |Frame(payload)|
    ensures Parse(Frame(payload)[k..]) != Payload(payload)
  {
    var x, body := Frame(payload)[k..], Body(payload);
    assert Frame(payload) == body + [NEWLINE] && x[|x| - 1] == NEWLINE;
    assert forall i :: 0 <= i < |payload| ==> payload[i] == body[|Varint(|payload|)| + i];
    if payload == [] {
      assert x == [NEWLINE];
    } else if Parse(x) == Payload(payload) {
      ParsedBeforeLast(x, payload);
    }
  }

  lemma ServeRound(chunks: seq<seq<Byte>>, n: nat)
    requires 0 < n <= |chunks| && Gather([], chunks) == Some(([] + Join(chunks[..n]), chunks[n..]))
    ensures Serve(chunks) == [Parse(Join(chunks[..n]))] + Serve(chunks[n..])
  {
    hide Gather, Parse, Join;
    var buffer := Join(chunks[..n]);
    assert [] + buffer == buffer;
  }

  lemma ParsingsSplit(payloads: seq<seq<Byte>>)
    requires payloads != []
    ensures Parsings(payloads) == [Payload(payloads[0])] + Parsings(payloads[1..])
  {
  }

  lemma SameTail<T>(x: T, a: seq<T>, y: T, b: seq<T>)
    ensures [x] + a == [y] + b <==> x == y && a == b
  {
    assert ([x] + a)[0] == x && ([y] + b)[0] == y;
    assert ([x] + a)[1..] == a && ([y] + b)[1..] == b;
  }

  /** A frame's only newline is its last byte. */
  lemma FrameNewline(payload: seq<Byte>, k: nat)
    requires Clean(payload) && k < |Frame(payload)|
    ensures var x := Frame(payload)[k..]; x[|x| - 1] == NEWLINE && NEWLINE !in x[..|x| - 1]
  {
    var x, body := Frame(payload)[k..], Body(payload);
    assert Frame(payload) == body + [NEWLINE];
    assert x[..|x| - 1] == body[k..];
  }

  /** Once the head of a frame is lost, what is served is not what was sent. */
  lemma {:induction false} HeadlessStream(payloads: seq<seq<Byte>>, k: nat, chunks: seq<seq<Byte>>)
    requires payloads != [] && AllClean(payloads) && Pieces(chunks)
    requires 0 < k < |Frame(payloads[0])|
    requires Join(chunks) == Frame(payloads[0])[k..] + Stream(payloads[1..])
    ensures Serve(chunks) != Parsings(payloads)
    decreases |payloads|, 0
  {
    hide Gather, Join, Frame, Stream, Parse, Serve, Parsings, EarlyNewline, Clean;
    var p, rest := payloads[0], payloads[1..];
    var x := Frame(p)[k..];
    FrameNewline(p, k);
    assert Join(chunks)[|x| - 1] == NEWLINE;
    var n := GatherRound([], chunks);
    var buffer, more := Join(chunks[..n]), chunks[n..];
    NewlineInJoin(chunks[..n], n - 1);
    RoundPassesNewline(chunks, n, x, Stream(rest));
    ServeRound(chunks, n);
    ParsingsSplit(payloads);
    SameTail(Parse(buffer), Serve(more), Payload(p), Parsings(rest));
    HeadlessNotParsed(p, k);
    if |buffer| == |x| {
      assert buffer == x;
    } else {
      TailNotServed(rest, |buffer| - |x|, more);
    }
  }

  /** Neither is it once the head of a stream is lost. */
  lemma {:induction false} TailNotServed(payloads: seq<seq<Byte>>, h: nat, chunks: seq<seq<Byte>>)
    requires AllClean(payloads) && Pieces(chunks)
    requires 0 < h <= |Stream(payloads)| && Join(chunks) == Stream(payloads)[h..]
    ensures Serve(chunks) != Parsings(payloads)
    decreases |payloads|, 1
  {
    hide Frame, Join, Serve, Clean, Newlines;
    var f, rest := Frame(payloads[0]), Stream(payloads[1..]);
    if h < |f| {
      assert (f + rest)[h..] == f[h..] + rest;
      HeadlessStream(payloads, h, chunks);
    } else {
      assert (f + rest)[h..] == rest[h - |f|..];
      assert rest == rest[..h - |f|] + rest[h - |f|..];
      NewlinesAppend(rest[..h - |f|], rest[h - |f|..]);
      NewlinesStream(payloads[1..]);
      ServedAtNewlines(chunks);
    }
  }

  /** A round goes at least up to the first newline of the stream. */
  lemma RoundPassesNewline(chunks: seq<seq<Byte>>, n: nat, x: seq<Byte>, rest: seq<Byte>)
    requires n <= |chunks| && Join(chunks) == x + rest
    requires x != [] && NEWLINE !in x[..|x| - 1]
    requires Join(chunks) == Join(chunks[..n]) + Join(chunks[n..]) && NEWLINE in Join(chunks[..n])
    ensures |x| <= |Join(chunks[..n])|
    ensures Join(chunks[..n]) == x + rest[..|Join(chunks[..n])| - |x|]
    ensures Join(chunks[n..]) == rest[|Join(chunks[..n])| - |x|..]
  {
    var buffer := Join(chunks[..n]);
    var whole := x + rest;
    assert buffer == whole[..|buffer|] && Join(chunks[n..]) == whole[|buffer|..];
    var i :| 0 <= i < |buffer| && buffer[i] == NEWLINE;
    assert forall m :: 0 <= m < |x| - 1 ==> whole[m] == x[..|x| - 1][m];
    assert whole[i] == NEWLINE;
  }

  /** Chunks are in order exactly when those of a round are and the others are. */
  lemma EndsSplit(chunks: seq<seq<Byte>>, n: nat)
    requires n <= |chunks|
    ensures EndsAtNewlines(chunks) <==> EndsAtNewlines(chunks[..n]) && EndsAtNewlines(chunks[n..])
  {
    forall i, j | 0 <= i < |chunks| && 0 <= j < |chunks[i]| - 1
      ensures EndsAtNewlines(chunks[..n]) && EndsAtNewlines(chunks[n..]) ==> chunks[i][j] != NEWLINE
    {
      assert chunks[i] == if i < n then chunks[..n][i] else chunks[n..][i - n];
    }
  }

  /** A round ends at its newline exactly when it takes no more than the frame. */
  lemma RoundEnds(chunks: seq<seq<Byte>>, f: seq<Byte>, h: seq<Byte>)
    requires chunks != [] && Pieces(chunks) && Join(chunks) == f + h
    requires f != [] && NEWLINE !in f[..|f| - 1] && f[|f| - 1] == NEWLINE
    requires NEWLINE in chunks[|chunks| - 1] && !EarlyNewline(chunks)
    ensures EndsAtNewlines(chunks) <==> h == []
  {
    var last := chunks[|chunks| - 1];
    var before := Join(chunks[..|chunks| - 1]);
    JoinLast(chunks);
    NoNewlineBefore(chunks);
    assert before + last == f + h;
    assert forall m :: 0 <= m < |before| ==> (f + h)[m] == before[m];
    assert (f + h)[|f| - 1] == NEWLINE;
    assert |before| < |f|;
    var j := |f| - 1 - |before|;
    assert last[j] == (before + last)[|f| - 1] == (f + h)[|f| - 1] == NEWLINE;
    if h == [] {
      assert j == |last| - 1;
      forall i, m | 0 <= i < |chunks| && 0 <= m < |chunks[i]| - 1
        ensures chunks[i][m] != NEWLINE
      {
        if i == |chunks| - 1 {
          assert last[m] == (before + last)[|before| + m] == f[..|f| - 1][|before| + m];
        }
      }
    }
  }

  lemma {:induction false} JoinLast(chunks: seq<seq<Byte>>)
    requires chunks != []
    ensures Join(chunks) == Join(chunks[..|chunks| - 1]) + chunks[|chunks| - 1]
    decreases |chunks|
  {
    if |chunks| > 1 {
      JoinLast(chunks[1..]);
      assert chunks[..|chunks| - 1][1..] == chunks[1..][..|chunks| - 2];
    }
  }

  lemma {:induction false} NoNewlineBefore(chunks: seq<seq<Byte>>)
    requires chunks != [] && !EarlyNewline(chunks)
    ensures NEWLINE !in Join(chunks[..|chunks| - 1])
    decreases |chunks|
  {
    if |chunks| > 1 {
      assert NEWLINE !in chunks[0];
      assert forall i :: 0 <= i < |chunks[1..]| ==> chunks[1..][i] == chunks[i + 1];
      NoNewlineBefore(chunks[1..]);
      assert chunks[..|chunks| - 1][1..] == chunks[1..][..|chunks| - 2];
    }
  }

  /**
   However a stream of such frames is cut, the reader gets every payload, in order and nothing
   else, exactly when no chunk goes on after a newline.
   */
  lemma {:induction false} StreamArrivesExactly(payloads: seq<seq<Byte>>, chunks: seq<seq<Byte>>)
    requires AllClean(payloads) && Chunking(chunks, Stream(payloads))
    ensures Serve(chunks) == Parsings(payloads) <==> EndsAtNewlines(chunks)
    decreases |payloads|
  {
    hide Gather, Join, Frame, Parse, Serve, Parsings, EarlyNewline, Clean, EndsAtNewlines;
    if payloads == [] {
      NothingSent(chunks);
    } else {
      var p, rest := payloads[0], payloads[1..];
      var f := Frame(p);
      ShortEnough(p);
      FrameNewline(p, 0);
      assert f[0..] == f;
      assert Join(chunks)[|f| - 1] == NEWLINE;
      var n := GatherRound([], chunks);
      var buffer, more := Join(chunks[..n]), chunks[n..];
      NewlineInJoin(chunks[..n], n - 1);
      RoundPassesNewline(chunks, n, f, Stream(rest));
      var h := |buffer| - |f|;
      FrameRoundTrip(p, Stream(rest)[..h]);
      ServeRound(chunks, n);
      ParsingsSplit(payloads);
      SameTail(Parse(buffer), Serve(more), Payload(p), Parsings(rest));
      EndsSplit(chunks, n);
      RoundEnds(chunks[..n], f, Stream(rest)[..h]);
      if h == 0 {
        StreamArrivesExactly(rest, more);
      } else {
        TailNotServed(rest, h, more);
      }
    }
  }

  lemma ShortEnough(payload: seq<Byte>)
    requires Clean(payload)
    ensures |payload| < 0x1_0000_0000 && Frame(payload) != []
  {
  }

  lemma NothingSent(chunks: seq<seq<Byte>>)
    requires Chunking(chunks, [])
    ensures Serve(chunks) == Parsings([]) && EndsAtNewlines(chunks)
  {
    assert chunks == [];
  }

  /**
   Newlines inside payloads can undo the connection both ways: here every payload arrives, although
   the first frame is left before its end and the second chunk goes on after a newline.
   */
  lemma LuckyCut()
    ensures var ten: seq<Byte> := seq(10, _ => NEWLINE);
            var chunks: seq<seq<Byte>> := [[1, NEWLINE], [NEWLINE] + Frame(ten)];
            && Chunking(chunks, Stream([[NEWLINE], ten])) && !EndsAtNewlines(chunks)
            && Serve(chunks) == Parsings([[NEWLINE], ten])
  {
    var ten: seq<Byte> := seq(10, _ => NEWLINE);
    var p: seq<Byte> := [NEWLINE];
    var first: seq<Byte> := [1, NEWLINE];
    var second := p + Frame(ten);
    var chunks := [first, second];
    assert Frame(p) == [1, NEWLINE, NEWLINE] && Frame(ten) == [NEWLINE] + ten + [NEWLINE];
    assert chunks[1..] == [second] && Join([second]) == second;
    assert [p, ten][1..] == [ten] && Stream([ten]) == Frame(ten);
    assert first + second == Frame(p) + Frame(ten);
    assert second[0] == NEWLINE && chunks[1][0] == NEWLINE;
    assert [] + first == first && [] + second == second && first[1] == NEWLINE;
    assert Gather([], chunks) == Some((first, [second]));
    assert [second][1..] == chunks[2..];
    assert Gather([], [second]) == Some((second, chunks[2..]));
    assert first[1..1 + 1] == p;
    assert Parse(first) == Payload(p);
    assert second[1..1 + 10] == ten;
    assert Parse(second) == Payload(ten);
    assert Serve(chunks[2..]) == [];
  }

  /** Two frames in one chunk: the second is lost. */
  lemma SecondFrameOfChunkIsLost(p: seq<Byte>, q: seq<Byte>)
    requires |p| < 0x1_0000_0000
    ensures Serve([Frame(p) + Frame(q)]) == [Payload(p)]
  {
    var chunk := Frame(p) + Frame(q);
    FrameRoundTrip(p, Frame(q));
    assert chunk[|Frame(p)| - 1] == NEWLINE;
    var none: seq<seq<Byte>> := [];
    assert [] + chunk == chunk && [chunk][1..] == none;
    assert Gather(chunk, none) == Some((chunk, none));
    assert Serve(none) == [];
  }
}
