/**
 Incremental decoding of a provider's event stream.

 The decoder appends each chunk to a buffer, turns CR LF into LF, and cuts complete events off its front.  The
 specification reads the whole stream at once.  Parsing and validating one event's payload is a parameter.
 */
module Sse {
  import opened Options

  type Byte = nat
  type Bytes = seq<Byte>

  const CR: Byte := 13
  const LF: Byte := 10
  const SPACE: Byte := 32
  const MAX_BUFFER := 2 * 1024 * 1024
  const DATA: Bytes := [100, 97, 116, 97, 58]
  const DONE: Bytes := [91, 68, 79, 78, 69, 93]

  type Payload = nat
  datatype Parsed = Good(payload: Payload) | Bad(code: nat)

  type Parser = Bytes -> Parsed

  datatype Event = Message(payload: Payload) | LastEvent
  datatype End = Finished | Interrupted | Rejected(code: nat) | TooLarge
  datatype Result = Result(events: seq<Event>, end: End)

  // ---------------------------------------------------------------- one event

  function Lines(frame: Bytes): seq<Bytes>
    ensures |Lines(frame)| > 0
  {
    if frame == [] then [[]]
    else
      var rest := Lines(frame[1..]);
      if frame[0] == LF then [[]] + rest else [[frame[0]] + rest[0]] + rest[1..]
  }

  function StripSpaces(s: Bytes): Bytes {
    if s != [] && s[0] == SPACE then StripSpaces(s[1..]) else s
  }

  function Values(lines: seq<Bytes>): seq<Bytes> {
    if lines == [] then []
    else if DATA <= lines[0] then [StripSpaces(lines[0][5..])] + Values(lines[1..])
    else Values(lines[1..])
  }

  function Joined(values: seq<Bytes>): Bytes
    requires values != []
  {
    if |values| == 1 then values[0] else values[0] + [LF] + Joined(values[1..])
  }

  /** What one frame amounts to: nothing, an event, or the end. */
  datatype Meaning = Ignore | Emit(payload: Payload) | Last | Refuse(code: nat)

  /** The reading of frames, with which the framing itself has nothing to do. */
  datatype Handler = Handler(of: Bytes -> Meaning)

  function Handle(frame: Bytes, parse: Parser): Meaning {
    var values := Values(Lines(frame));
    if values == [] then Ignore
    else if Joined(values) == DONE then Last
    else match parse(Joined(values))
      case Good(payload) => Emit(payload)
      case Bad(code) => Refuse(code)
  }

  function FrameHandler(parse: Parser): Handler {
    Handler((frame: Bytes) => Handle(frame, parse))
  }

  // ---------------------------------------------------------------- line ends

  /** `replace(b"\r\n", b"\n")`. */
  function Crush(s: Bytes): (r: Bytes)
    ensures |r| <= |s|
  {
    if s == [] then []
    else if s[0] == CR && |s| > 1 && s[1] == LF then Crush(s[1..])
    else [s[0]] + Crush(s[1..])
  }

  predicate HasCrLfAt(s: Bytes, i: int) {
    0 <= i < |s| - 1 && s[i] == CR && s[i + 1] == LF
  }

  predicate HasCrCrLfAt(s: Bytes, i: int) {
    0 <= i < |s| - 2 && s[i] == CR && s[i + 1] == CR && s[i + 2] == LF
  }

  ghost predicate NoCrLf(s: Bytes) {
    forall i :: !HasCrLfAt(s, i)
  }

  ghost predicate NoCrCrLf(s: Bytes) {
    forall i :: !HasCrCrLfAt(s, i)
  }

  /** The boundary between the two does not cut a CR LF. */
  predicate CleanCut(x: Bytes, y: Bytes) {
    x == [] || y == [] || x[|x| - 1] != CR || y[0] != LF
  }

  lemma {:induction false} CrushConcat(x: Bytes, y: Bytes)
    requires CleanCut(x, y)
    ensures Crush(x + y) == Crush(x) + Crush(y)
  {
    if x == [] {
      assert x + y == y;
    } else {
      assert (x + y)[1..] == x[1..] + y;
      CrushConcat(x[1..], y);
    }
  }

  lemma {:induction false} CrushFixed(s: Bytes)
    ensures NoCrLf(s) ==> Crush(s) == s
    ensures !NoCrLf(s) ==> |Crush(s)| < |s|
  {
    if s != [] {
      CrushFixed(s[1..]);
      assert HasCrLfAt(s, 0) <==> s[0] == CR && |s| > 1 && s[1] == LF;
      assert forall i :: HasCrLfAt(s[1..], i) ==> HasCrLfAt(s, i + 1);
      assert forall i :: HasCrLfAt(s, i) && i != 0 ==> HasCrLfAt(s[1..], i - 1);
    }
  }

  lemma {:induction false} CrushFirst(s: Bytes)
    requires s != []
    ensures Crush(s) != []
    ensures Crush(s)[0] == if HasCrLfAt(s, 0) then LF else s[0]
  {
    if HasCrLfAt(s, 0) {
      CrushFirst(s[1..]);
    }
  }

  lemma {:induction false} CrushLast(s: Bytes)
    requires s != []
    ensures Crush(s) != [] && Crush(s)[|Crush(s)| - 1] == s[|s| - 1]
  {
    if |s| > 1 {
      CrushLast(s[1..]);
    }
  }

  /** One pass leaves no CR LF exactly when the stream has no CR CR LF. */
  lemma {:induction false} CrushClean(s: Bytes)
    ensures NoCrCrLf(s) <==> NoCrLf(Crush(s))
  {
    if s != [] {
      var t := s[1..];
      CrushClean(t);
      assert forall i :: HasCrCrLfAt(t, i) ==> HasCrCrLfAt(s, i + 1);
      assert forall i :: HasCrCrLfAt(s, i) && i != 0 ==> HasCrCrLfAt(t, i - 1);
      if HasCrLfAt(s, 0) {
        assert !HasCrCrLfAt(s, 0);
      } else {
        var c := Crush(t);
        assert forall i :: HasCrLfAt(c, i) ==> HasCrLfAt(Crush(s), i + 1);
        assert forall i :: HasCrLfAt(Crush(s), i) && i != 0 ==> HasCrLfAt(c, i - 1);
        if t != [] {
          CrushFirst(t);
          assert HasCrLfAt(Crush(s), 0) <==> HasCrCrLfAt(s, 0);
        }
      }
    }
  }

  /** Normalising what was already normalised changes nothing exactly on streams without CR CR LF. */
  lemma CrushIdempotentIff(s: Bytes)
    ensures Crush(Crush(s)) == Crush(s) <==> NoCrCrLf(s)
  {
    CrushClean(s);
    CrushFixed(Crush(s));
  }

  lemma CrushFront(x: Bytes, y: Bytes)
    requires NoCrCrLf(x) && CleanCut(x, y)
    ensures Crush(Crush(x) + y) == Crush(x) + Crush(y) == Crush(x + y)
  {
    CrushIdempotentIff(x);
    CrushConcat(x, y);
    if x != [] {
      CrushLast(x);
    }
    CrushConcat(Crush(x), y);
  }

  lemma CrushOneCr()
    ensures Crush([CR]) == [CR]
  {
  }

  /** A trailing CR stays in the buffer and meets its LF in the next chunk. */
  lemma CrushAgain(x: Bytes, y: Bytes)
    requires NoCrCrLf(x)
    ensures Crush(Crush(x) + y) == Crush(x + y)
  {
    hide Crush;
    if x == [] || x[|x| - 1] != CR {
      CrushFront(x, y);
    } else {
      var x' := x[..|x| - 1];
      assert x == x' + [CR];
      assert forall i :: HasCrCrLfAt(x', i) ==> HasCrCrLfAt(x, i);
      CrushFront(x', [CR] + y);
      assert x + y == x' + ([CR] + y);
      CrushConcat(x', [CR]);
      CrushOneCr();
      assert Crush(x) == Crush(x') + [CR];
      assert Crush(x) + y == Crush(x') + ([CR] + y);
    }
  }

  /** Bytes up to a line end are final once normalised. */
  lemma FrontIsFinal(prefix: Bytes, more: Bytes, n: nat)
    requires NoCrCrLf(prefix) && n <= |Crush(prefix)| && (n > 0 ==> Crush(prefix)[n - 1] == LF)
    ensures Crush(prefix + more) == Crush(prefix)[..n] + Crush(Crush(prefix)[n..] + more)
  {
    hide Crush;
    var u := Crush(prefix);
    var front := u[..n];
    CrushAgain(prefix, more);
    assert u + more == front + (u[n..] + more);
    CrushConcat(front, u[n..] + more);
    CrushClean(prefix);
    assert forall i :: HasCrLfAt(front, i) ==> HasCrLfAt(u, i);
    CrushFixed(front);
  }

  // ---------------------------------------------------------------- complete events at the front

  /** Position of the first blank line, or the length if there is none. */
  function FirstBreak(s: Bytes): (i: nat)
    ensures i <= |s| && (i < |s| ==> i + 2 <= |s| && s[i] == LF && s[i + 1] == LF)
  {
    if |s| < 2 then |s| else if s[0] == LF && s[1] == LF then 0 else 1 + FirstBreak(s[1..])
  }

  lemma {:induction false} FirstBreakStable(s: Bytes, w: Bytes)
    requires FirstBreak(s) < |s|
    ensures FirstBreak(s[..FirstBreak(s) + 2] + w) == FirstBreak(s)
  {
    var i := FirstBreak(s);
    if i != 0 {
      FirstBreakStable(s[1..], w);
      assert (s[..i + 2] + w)[1..] == s[1..][..i + 1] + w;
    }
  }

  /** Events cut off the front, how many bytes they took, and the end if one was reached. */
  datatype Consumed = Consumed(events: seq<Event>, used: nat, end: Option<End>)

  function Then(first: Consumed, second: Consumed): Consumed {
    if first.end.Some? then first
    else Consumed(first.events + second.events, first.used + second.used, second.end)
  }

  function OneFrame(frame: Bytes, handle: Handler): Consumed {
    match handle.of(frame)
    case Ignore => Consumed([], |frame| + 2, None)
    case Emit(payload) => Consumed([Message(payload)], |frame| + 2, None)
    case Last => Consumed([LastEvent], |frame| + 2, Some(Finished))
    case Refuse(code) => Consumed([], |frame| + 2, Some(Rejected(code)))
  }

  function Consume(s: Bytes, handle: Handler): (k: Consumed)
    ensures k.used <= |s| && (k.used > 0 ==> s[k.used - 1] == LF)
    decreases |s|
  {
    var i := FirstBreak(s);
    if i == |s| then Consumed([], 0, None)
    else
      var first := OneFrame(s[..i], handle);
      if first.end.Some? then first else Then(first, Consume(s[i + 2..], handle))
  }

  lemma ThenAssociates(a: Consumed, b: Consumed, c: Consumed)
    ensures Then(Then(a, b), c) == Then(a, Then(b, c))
  {
    if a.end.None? && b.end.None? {
      assert a.events + b.events + c.events == a.events + (b.events + c.events);
    }
  }

  lemma ConsumeUnfold(s: Bytes, more: Bytes, handle: Handler)
    requires FirstBreak(s) < |s|
    ensures var i := FirstBreak(s);
            Consume(s[..i + 2] + more, handle) == Then(OneFrame(s[..i], handle), Consume(more, handle))
  {
    hide FirstBreak;
    hide OneFrame;
    var i := FirstBreak(s);
    var t := s[..i + 2] + more;
    FirstBreakStable(s, more);
    assert t[..i] == s[..i] && t[i + 2..] == more;
  }

  lemma Regroup(s: Bytes, i: nat, used: nat, w: Bytes)
    requires i + used <= |s|
    ensures s[..i + used] + w == s[..i] + (s[i..][..used] + w)
  {
  }

  lemma ConsumeNone(s: Bytes, handle: Handler)
    requires FirstBreak(s) == |s|
    ensures Consume(s, handle) == Consumed([], 0, None)
  {
    hide FirstBreak;
  }

  lemma ConsumeFirst(s: Bytes, i: nat, handle: Handler)
    requires i == FirstBreak(s) < |s|
    ensures Consume(s, handle) == Then(OneFrame(s[..i], handle), Consume(s[i + 2..], handle))
    ensures OneFrame(s[..i], handle).used == i + 2
  {
    hide FirstBreak;
  }

  lemma ConsumeLater(s: Bytes, handle: Handler, t: Bytes, more: Bytes, first: Consumed, r: Consumed, c: Consumed)
    requires FirstBreak(s) < |s| && first == OneFrame(s[..FirstBreak(s)], handle) && first.end.None?
    requires t == s[..FirstBreak(s) + 2] + more && Consume(more, handle) == Then(r, c)
    ensures Consume(t, handle) == Then(Then(first, r), c)
  {
    ConsumeUnfold(s, more, handle);
    ThenAssociates(first, r, c);
  }

  /** What was cut off does not depend on what follows it. */
  lemma {:induction false} ConsumeStable(s: Bytes, w: Bytes, handle: Handler, k: Consumed, t: Bytes)
    requires k == Consume(s, handle) && t == s[..k.used] + w
    ensures Consume(t, handle) == Then(k, Consume(w, handle))
    decreases |s|
  {
    hide FirstBreak;
    hide Consume;
    hide OneFrame;
    var i := FirstBreak(s);
    if i == |s| {
      ConsumeNone(s, handle);
      assert t == w && [] + Consume(w, handle).events == Consume(w, handle).events;
    } else {
      ConsumeFirst(s, i, handle);
      var rest, first := s[i + 2..], OneFrame(s[..i], handle);
      if first.end.Some? {
        ConsumeUnfold(s, w, handle);
      } else {
        var r := Consume(rest, handle);
        var more := rest[..r.used] + w;
        Regroup(s, i + 2, r.used, w);
        assert t == s[..i + 2] + more;
        ConsumeStable(rest, w, handle, r, more);
        ConsumeLater(s, handle, t, more, first, r, Consume(w, handle));
      }
    }
  }

  /** Decoding more of the stream continues from the buffer. */
  lemma Extend(prefix: Bytes, more: Bytes, handle: Handler)
    requires NoCrCrLf(prefix)
    ensures var k := Consume(Crush(prefix), handle);
            Consume(Crush(prefix + more), handle) == Then(k, Consume(Crush(Crush(prefix)[k.used..] + more), handle))
  {
    hide Consume;
    hide Crush;
    var u := Crush(prefix);
    var k := Consume(u, handle);
    FrontIsFinal(prefix, more, k.used);
    ConsumeStable(u, Crush(u[k.used..] + more), handle, k, Crush(prefix + more));
  }

  // ---------------------------------------------------------------- chunk by chunk against the whole stream

  function Flat(chunks: seq<Bytes>): Bytes {
    if chunks == [] then [] else chunks[0] + Flat(chunks[1..])
  }

  /** The specification: normalise the whole stream, then read its events. */
  function Whole(stream: Bytes, handle: Handler): Result {
    var k := Consume(Crush(stream), handle);
    Result(k.events, if k.end.Some? then k.end.value else Interrupted)
  }

  /** The decoder from a given buffer and byte count on. */
  function Incremental(buffer: Bytes, total: nat, chunks: seq<Bytes>, limit: nat, handle: Handler): Result
    decreases |chunks|
  {
    if chunks == [] then Result([], Interrupted)
    else if total + |chunks[0]| > limit || |buffer| + |chunks[0]| > MAX_BUFFER then Result([], TooLarge)
    else
      var u := Crush(buffer + chunks[0]);
      var k := Consume(u, handle);
      if k.end.Some? then Result(k.events, k.end.value)
      else
        var rest := Incremental(u[k.used..], total + |chunks[0]|, chunks[1..], limit, handle);
        Result(k.events + rest.events, rest.end)
  }

  lemma IncrementalStep(buffer: Bytes, total: nat, chunks: seq<Bytes>, limit: nat, handle: Handler)
    requires chunks != []
    ensures var u := Crush(buffer + chunks[0]);
            var k := Consume(u, handle);
            var rest := Incremental(u[k.used..], total + |chunks[0]|, chunks[1..], limit, handle);
            Incremental(buffer, total, chunks, limit, handle) ==
            if total + |chunks[0]| > limit || |buffer| + |chunks[0]| > MAX_BUFFER then Result([], TooLarge)
            else if k.end.Some? then Result(k.events, k.end.value)
            else Result(k.events + rest.events, rest.end)
  {
    hide Crush;
    hide Consume;
  }

  lemma Associate(a: seq<Event>, b: seq<Event>, c: seq<Event>)
    ensures a + b + c == a + (b + c) && a + [] == a
  {
  }

  /** Equal to the specification, or cut short by a size limit that the stream's length exceeds. */
  predicate Agrees(before: seq<Event>, r: Result, stream: Bytes, limit: nat, handle: Handler) {
    var whole := Whole(stream, handle);
    || Result(before + r.events, r.end) == whole
    || (r.end.TooLarge? && before + r.events <= whole.events && (|stream| > limit || |stream| > MAX_BUFFER))
  }

  lemma NoCrCrLfPrefix(x: Bytes, y: Bytes)
    requires NoCrCrLf(x + y)
    ensures NoCrCrLf(x)
  {
    assert forall i :: HasCrCrLfAt(x, i) ==> HasCrCrLfAt(x + y, i);
  }

  lemma AgreesLater(before: seq<Event>, next: seq<Event>, rest: Result, stream: Bytes, limit: nat, handle: Handler)
    requires Agrees(before + next, rest, stream, limit, handle)
    ensures Agrees(before, Result(next + rest.events, rest.end), stream, limit, handle)
  {
    hide Consume;
    hide Crush;
    Associate(before, next, rest.events);
  }

  lemma AgreesNow(before: seq<Event>, r: Result, stream: Bytes, limit: nat, handle: Handler)
    requires Whole(stream, handle) == Result(before + r.events, r.end)
    ensures Agrees(before, r, stream, limit, handle)
  {
    hide Whole;
  }

  lemma AgreesCut(before: seq<Event>, stream: Bytes, limit: nat, handle: Handler)
    requires before <= Whole(stream, handle).events && (|stream| > limit || |stream| > MAX_BUFFER)
    ensures Agrees(before, Result([], TooLarge), stream, limit, handle)
  {
    hide Whole;
    Associate(before, [], []);
  }

  /** The stream ended, was refused, or was cut short by a limit at this chunk. */
  lemma LastChunk(prefix: Bytes, chunk: Bytes, later: Bytes, limit: nat, handle: Handler)
    requires NoCrCrLf(prefix + chunk) && Consume(Crush(prefix), handle).end.None?
    ensures var k := Consume(Crush(prefix), handle);
            var next := Consume(Crush(Crush(prefix)[k.used..] + chunk), handle);
            next.end.Some? ==> Whole(prefix + chunk + later, handle) == Result(k.events + next.events, next.end.value)
  {
    hide Consume;
    hide Crush;
    NoCrCrLfPrefix(prefix, chunk);
    Extend(prefix, chunk, handle);
    Extend(prefix + chunk, later, handle);
  }

  lemma Oversized(prefix: Bytes, more: Bytes, handle: Handler)
    requires NoCrCrLf(prefix) && Consume(Crush(prefix), handle).end.None?
    ensures Consume(Crush(prefix), handle).events <= Whole(prefix + more, handle).events
  {
    hide Consume;
    hide Crush;
    Extend(prefix, more, handle);
  }

  lemma {:induction false} IncrementalAgrees(prefix: Bytes, chunks: seq<Bytes>, limit: nat, handle: Handler)
    requires NoCrCrLf(prefix + Flat(chunks)) && Consume(Crush(prefix), handle).end.None?
    ensures var k := Consume(Crush(prefix), handle);
            Agrees(k.events, Incremental(Crush(prefix)[k.used..], |prefix|, chunks, limit, handle),
                   prefix + Flat(chunks), limit, handle)
    decreases |chunks|
  {
    hide Consume;
    hide Crush;
    hide Agrees;
    hide Incremental;
    hide Whole;
    var k := Consume(Crush(prefix), handle);
    var buffer := Crush(prefix)[k.used..];
    NoCrCrLfPrefix(prefix, Flat(chunks));
    if chunks == [] {
      NoMore(prefix, limit, handle);
    } else {
      var chunk, later := chunks[0], Flat(chunks[1..]);
      var prefix' := prefix + chunk;
      assert prefix + Flat(chunks) == prefix' + later;
      NoCrCrLfPrefix(prefix', later);
      IncrementalStep(buffer, |prefix|, chunks, limit, handle);
      var next := Consume(Crush(buffer + chunk), handle);
      if |prefix'| > limit || |buffer| + |chunk| > MAX_BUFFER {
        Oversized(prefix, Flat(chunks), handle);
        AgreesCut(k.events, prefix + Flat(chunks), limit, handle);
      } else if next.end.Some? {
        LastChunk(prefix, chunk, later, limit, handle);
        AgreesNow(k.events, Result(next.events, next.end.value), prefix' + later, limit, handle);
      } else {
        Extend(prefix, chunk, handle);
        NextBuffer(prefix, chunk, handle);
        IncrementalAgrees(prefix', chunks[1..], limit, handle);
        var rest := Incremental(Crush(buffer + chunk)[next.used..], |prefix'|, chunks[1..], limit, handle);
        AgreesLater(k.events, next.events, rest, prefix' + later, limit, handle);
      }
    }
  }

  lemma NoMore(prefix: Bytes, limit: nat, handle: Handler)
    requires Consume(Crush(prefix), handle).end.None?
    ensures var k := Consume(Crush(prefix), handle);
            Agrees(k.events, Incremental(Crush(prefix)[k.used..], |prefix|, [], limit, handle), prefix + Flat([]), limit, handle)
  {
    hide Consume;
    hide Crush;
    assert prefix + [] == prefix;
    Associate(Consume(Crush(prefix), handle).events, [], []);
  }

  /** The buffer kept after a chunk is what the longer prefix would leave. */
  lemma NextBuffer(prefix: Bytes, chunk: Bytes, handle: Handler)
    requires NoCrCrLf(prefix) && Consume(Crush(prefix), handle).end.None?
    ensures var k := Consume(Crush(prefix), handle);
            var u := Crush(Crush(prefix)[k.used..] + chunk);
            var k' := Consume(Crush(prefix + chunk), handle);
            k'.used == k.used + Consume(u, handle).used && Crush(prefix + chunk)[k.used..] == u
            && Crush(prefix + chunk)[k'.used..] == u[Consume(u, handle).used..]
  {
    hide Consume;
    hide Crush;
    var k := Consume(Crush(prefix), handle);
    Extend(prefix, chunk, handle);
    FrontIsFinal(prefix, chunk, k.used);
  }

  // ---------------------------------------------------------------- theorems

  /** However the stream is cut into chunks, the decoder agrees with the whole-stream reading. */
  lemma ChunkIndependence(chunks: seq<Bytes>, limit: nat, handle: Handler)
    requires NoCrCrLf(Flat(chunks))
    ensures Agrees([], Incremental([], 0, chunks, limit, handle), Flat(chunks), limit, handle)
  {
    assert [] + Flat(chunks) == Flat(chunks);
    IncrementalAgrees([], chunks, limit, handle);
  }

  /** Two splits of one stream within the limits give the same events and the same end. */
  lemma SameForAnySplit(chunks: seq<Bytes>, chunks': seq<Bytes>, limit: nat, handle: Handler)
    requires Flat(chunks) == Flat(chunks') && NoCrCrLf(Flat(chunks))
    requires |Flat(chunks)| <= limit && |Flat(chunks)| <= MAX_BUFFER
    ensures Incremental([], 0, chunks, limit, handle) == Incremental([], 0, chunks', limit, handle) == Whole(Flat(chunks), handle)
  {
    ChunkIndependence(chunks, limit, handle);
    ChunkIndependence(chunks', limit, handle);
    var r, r' := Incremental([], 0, chunks, limit, handle), Incremental([], 0, chunks', limit, handle);
    assert [] + r.events == r.events && [] + r'.events == r'.events;
  }

  /** The closing event comes last, and only if the stream ended normally. */
  predicate ClosedProperly(events: seq<Event>, normal: bool) {
    && (normal <==> events != [] && events[|events| - 1].LastEvent?)
    && (forall i :: 0 <= i < |events| - 1 ==> events[i].Message?)
  }

  lemma {:induction false} ConsumeCloses(s: Bytes, handle: Handler)
    ensures var k := Consume(s, handle); ClosedProperly(k.events, k.end == Some(Finished))
    decreases |s|
  {
    hide Consume;
    hide FirstBreak;
    var i := FirstBreak(s);
    if i == |s| {
      ConsumeNone(s, handle);
    } else {
      ConsumeFirst(s, i, handle);
      ConsumeCloses(s[i + 2..], handle);
      var first, rest := OneFrame(s[..i], handle), Consume(s[i + 2..], handle);
      if first.end.None? {
        ClosedConcat(first.events, rest.events, rest.end == Some(Finished));
      }
    }
  }

  lemma ClosedConcat(events: seq<Event>, rest: seq<Event>, normal: bool)
    requires ClosedProperly(events, false) && ClosedProperly(rest, normal)
    ensures ClosedProperly(events + rest, normal)
  {
  }

  lemma NoChunks(buffer: Bytes, total: nat, limit: nat, handle: Handler)
    ensures Incremental(buffer, total, [], limit, handle) == Result([], Interrupted)
  {
  }

  lemma {:induction false} DoneIsLast(buffer: Bytes, total: nat, chunks: seq<Bytes>, limit: nat, handle: Handler)
    ensures var r := Incremental(buffer, total, chunks, limit, handle); ClosedProperly(r.events, r.end.Finished?)
    decreases |chunks|
  {
    hide Consume;
    hide Crush;
    hide Incremental;
    if chunks == [] {
      NoChunks(buffer, total, limit, handle);
    } else {
      IncrementalStep(buffer, total, chunks, limit, handle);
      var u := Crush(buffer + chunks[0]);
      var k := Consume(u, handle);
      ConsumeCloses(u, handle);
      if k.end.None? {
        DoneIsLast(u[k.used..], total + |chunks[0]|, chunks[1..], limit, handle);
        var rest := Incremental(u[k.used..], total + |chunks[0]|, chunks[1..], limit, handle);
        ClosedConcat(k.events, rest.events, rest.end.Finished?);
      }
    }
  }

  /**
   What is not cut off was decided within the limits: by some of the chunks, which together do not exceed the
   limit and none of which exceeds the buffer.
   */
  lemma {:induction false} DecidedWithinLimits(buffer: Bytes, total: nat, chunks: seq<Bytes>, limit: nat, handle: Handler)
    returns (n: nat)
    requires total <= limit && !Incremental(buffer, total, chunks, limit, handle).end.TooLarge?
    ensures n <= |chunks| && total + |Flat(chunks[..n])| <= limit
    ensures forall i :: 0 <= i < n ==> |chunks[i]| <= MAX_BUFFER
    ensures var r := Incremental(buffer, total, chunks, limit, handle);
            && Incremental(buffer, total, chunks[..n], limit, handle) == r
            && (r.end.Interrupted? ==> n == |chunks|)
    decreases |chunks|
  {
    hide Consume;
    hide Crush;
    if chunks == [] {
      n := 0;
    } else {
      IncrementalStep(buffer, total, chunks, limit, handle);
      var u := Crush(buffer + chunks[0]);
      var k := Consume(u, handle);
      if k.end.Some? {
        n := 1;
        assert chunks[..1] == [chunks[0]] && chunks[..1][1..] == [] && chunks[0] + [] == chunks[0];
        ConsumeEnds(u, handle);
      } else {
        var m := DecidedWithinLimits(u[k.used..], total + |chunks[0]|, chunks[1..], limit, handle);
        n := m + 1;
        assert chunks[..n][1..] == chunks[1..][..m];
      }
    }
  }

  /** Events never report an interruption or a limit. */
  lemma {:induction false} ConsumeEnds(s: Bytes, handle: Handler)
    ensures var k := Consume(s, handle); k.end.Some? ==> k.end.value.Finished? || k.end.value.Rejected?
    decreases |s|
  {
    hide FirstBreak;
    if FirstBreak(s) < |s| {
      ConsumeEnds(s[FirstBreak(s) + 2..], handle);
    }
  }

  // ---------------------------------------------------------------- why CR CR LF is excluded

  predicate PlainText(x: Bytes) {
    forall i :: 0 <= i < |x| ==> x[i] != CR && x[i] != LF
  }

  lemma {:induction false} PlainFrame(x: Bytes, tail: Bytes)
    requires PlainText(x) && LF !in tail
    ensures NoCrLf(x + tail) ==> Crush(x + tail) == x + tail
    ensures FirstBreak(x + tail) == |x + tail| && FirstBreak(x + tail + [LF, LF]) == |x + tail|
    ensures FirstBreak(x + tail + [LF]) == |x + tail| + 1
    decreases |x| + |tail|
  {
    hide Crush;
    CrushFixed(x + tail);
    var y := x + tail;
    if y != [] {
      assert y[0] != LF;
      assert (y + [LF, LF])[1..] == y[1..] + [LF, LF] && (y + [LF])[1..] == y[1..] + [LF];
      if x != [] {
        assert y[1..] == x[1..] + tail;
        PlainFrame(x[1..], tail);
      } else {
        assert y[1..] == x + tail[1..];
        PlainFrame(x, tail[1..]);
      }
    }
  }

  lemma CrushTail(x: Bytes, tail: Bytes, crushed: Bytes)
    requires PlainText(x) && Crush(tail) == crushed
    ensures Crush(x + tail) == x + crushed
  {
    CrushConcat(x, tail);
    CrushFixed(x);
  }

  lemma CrushEnds()
    ensures Crush([CR, CR, LF, LF]) == [CR, LF, LF] && Crush([CR, LF, LF]) == [LF, LF]
    ensures Crush([CR, CR, LF]) == [CR, LF]
  {
    var one, two := [LF], [LF, LF];
    assert one[1..] == [] && two[1..] == one;
    assert Crush(one) == one && Crush(two) == two;
    var three, short := [CR, LF, LF], [CR, LF];
    assert three[1..] == two && short[1..] == one;
    assert Crush(three) == two && Crush(short) == one;
    assert [CR, CR, LF, LF][1..] == three && [CR, CR, LF][1..] == short;
  }

  /**
   A text followed by CR CR LF LF: read at once, the event keeps one CR; cut before the last byte, the
   decoder normalises a second time and the CR is gone.
   */
  lemma SplitMatters(x: Bytes, limit: nat, handle: Handler)
    requires PlainText(x) && |x| + 4 <= limit && |x| + 4 <= MAX_BUFFER
    ensures var whole := OneFrame(x + [CR], handle);
            Incremental([], 0, [x + [CR, CR, LF, LF]], limit, handle) == Ended(whole)
    ensures var split := OneFrame(x, handle);
            Incremental([], 0, [x + [CR, CR, LF], [LF]], limit, handle) == Ended(split)
  {
    CrushEnds();
    CrushTail(x, [CR, CR, LF, LF], [CR, LF, LF]);
    ReadAtOnce(x, limit, handle);
    ReadInTwo(x, limit, handle);
  }

  function Ended(k: Consumed): Result {
    Result(k.events, if k.end.Some? then k.end.value else Interrupted)
  }

  lemma ConsumeFrame(frame: Bytes, handle: Handler)
    requires FirstBreak(frame + [LF, LF]) == |frame|
    ensures Consume(frame + [LF, LF], handle) == OneFrame(frame, handle)
  {
    var s := frame + [LF, LF];
    ConsumeFirst(s, |frame|, handle);
    assert s[..|frame|] == frame && s[|frame| + 2..] == [];
    var first := OneFrame(frame, handle);
    assert first.events + [] == first.events;
  }

  lemma OneChunk(buffer: Bytes, total: nat, chunk: Bytes, limit: nat, handle: Handler)
    requires total + |chunk| <= limit && |buffer| + |chunk| <= MAX_BUFFER
    ensures Incremental(buffer, total, [chunk], limit, handle) == Ended(Consume(Crush(buffer + chunk), handle))
  {
    var k := Consume(Crush(buffer + chunk), handle);
    assert k.events + [] == k.events;
  }

  lemma ReadAtOnce(x: Bytes, limit: nat, handle: Handler)
    requires PlainText(x) && |x| + 4 <= limit && |x| + 4 <= MAX_BUFFER
    requires Crush(x + [CR, CR, LF, LF]) == x + [CR, LF, LF]
    ensures Incremental([], 0, [x + [CR, CR, LF, LF]], limit, handle) == Ended(OneFrame(x + [CR], handle))
  {
    var chunk := x + [CR, CR, LF, LF];
    assert [] + chunk == chunk && x + [CR, LF, LF] == x + [CR] + [LF, LF];
    OneChunk([], 0, chunk, limit, handle);
    PlainFrame(x, [CR]);
    ConsumeFrame(x + [CR], handle);
  }

  /** The first chunk leaves the text, one CR and one LF in the buffer. */
  lemma ReadFirst(x: Bytes, limit: nat, handle: Handler)
    requires PlainText(x) && |x| + 4 <= limit && |x| + 4 <= MAX_BUFFER
    ensures Incremental([], 0, [x + [CR, CR, LF], [LF]], limit, handle)
         == Incremental(x + [CR, LF], |x| + 3, [[LF]], limit, handle)
  {
    var first, u := x + [CR, CR, LF], x + [CR, LF];
    CrushEnds();
    CrushTail(x, [CR, CR, LF], [CR, LF]);
    assert [] + first == first && u == x + [CR] + [LF] && [first, [LF]][1..] == [[LF]];
    PlainFrame(x, [CR]);
    assert Consume(u, handle) == Consumed([], 0, None) && u[0..] == u;
    var rest := Incremental(u, |first|, [[LF]], limit, handle);
    assert [] + rest.events == rest.events;
  }

  lemma ReadInTwo(x: Bytes, limit: nat, handle: Handler)
    requires PlainText(x) && |x| + 4 <= limit && |x| + 4 <= MAX_BUFFER
    ensures Incremental([], 0, [x + [CR, CR, LF], [LF]], limit, handle) == Ended(OneFrame(x, handle))
  {
    ReadFirst(x, limit, handle);
    assert x + [CR, LF] + [LF] == x + [CR, LF, LF];
    CrushEnds();
    CrushTail(x, [CR, LF, LF], [LF, LF]);
    OneChunk(x + [CR, LF], |x| + 3, [LF], limit, handle);
    PlainFrame(x, []);
    assert x + [] == x;
    ConsumeFrame(x, handle);
  }

  lemma {:induction false} OneLine(x: Bytes)
    requires LF !in x
    ensures Lines(x) == [x]
  {
    if x != [] {
      OneLine(x[1..]);
      assert [x[0]] + x[1..] == x && [x[1..]][1..] == [];
    }
  }

  const BARE: Bytes := DATA + [SPACE] + DONE

  lemma LineValue(line: Bytes)
    requires LF !in line && |line| > 6 && line[..5] == DATA && line[5] == SPACE && line[6] != SPACE
    ensures Values(Lines(line)) == [line[6..]]
  {
    OneLine(line);
    var rest := line[5..];
    assert rest[1..] == line[6..] && StripSpaces(rest) == StripSpaces(line[6..]) == line[6..];
    assert DATA <= line;
    var lines := [line];
    assert lines[1..] == [] && Values(lines) == [StripSpaces(rest)] + Values([]);
  }

  /** So `data: [DONE]` CR CR LF LF ends the stream normally if and only if it is cut before its last byte. */
  lemma DoneDependsOnSplit(parse: Parser)
    ensures FrameHandler(parse).of(BARE) == Last && FrameHandler(parse).of(BARE + [CR]) != Last
    ensures var r := Incremental([], 0, [BARE + [CR, CR, LF], [LF]], 100, FrameHandler(parse));
            r == Result([LastEvent], Finished)
    ensures Incremental([], 0, [BARE + [CR, CR, LF, LF]], 100, FrameHandler(parse)).end != Finished
  {
    hide Incremental;
    hide Lines;
    hide Values;
    LineValue(BARE);
    LineValue(BARE + [CR]);
    assert BARE[6..] == DONE && (BARE + [CR])[6..] == DONE + [CR];
    assert |DONE + [CR]| == 7;
    SplitMatters(BARE, 100, FrameHandler(parse));
  }

  // ---------------------------------------------------------------- the decoder

  lemma DropDrop(s: Bytes, i: nat, j: nat)
    requires i + j <= |s|
    ensures s[i..][j..] == s[i + j..]
  {
  }

  /** After cutting off `cut`, `rest` is left, and continuing from there gives `whole`. */
  ghost predicate Cutting(whole: Consumed, cut: Consumed, buffer: Bytes, rest: Bytes, handle: Handler) {
    && cut.used <= |buffer| && rest == buffer[cut.used..]
    && whole == (if cut.end.Some? then cut else Then(cut, Consume(rest, handle)))
  }

  lemma CutNothing(buffer: Bytes, handle: Handler)
    ensures Cutting(Consume(buffer, handle), Consumed([], 0, None), buffer, buffer, handle)
  {
    var whole := Consume(buffer, handle);
    assert buffer[0..] == buffer && [] + whole.events == whole.events;
  }

  lemma CutOne(whole: Consumed, cut: Consumed, buffer: Bytes, rest: Bytes, handle: Handler)
    requires Cutting(whole, cut, buffer, rest, handle) && cut.end.None? && FirstBreak(rest) < |rest|
    ensures var i := FirstBreak(rest);
            Cutting(whole, Then(cut, OneFrame(rest[..i], handle)), buffer, rest[i + 2..], handle)
  {
    var i := FirstBreak(rest);
    DropDrop(buffer, cut.used, i + 2);
    ConsumeFirst(rest, i, handle);
    var first := OneFrame(rest[..i], handle);
    ThenAssociates(cut, first, Consume(rest[i + 2..], handle));
    assert Then(cut, first).used == cut.used + (i + 2);
    assert rest[i + 2..] == buffer[Then(cut, first).used..];
  }

  lemma CutAll(whole: Consumed, cut: Consumed, buffer: Bytes, rest: Bytes, handle: Handler)
    requires Cutting(whole, cut, buffer, rest, handle) && (cut.end.Some? || FirstBreak(rest) == |rest|)
    ensures cut == whole && rest == buffer[cut.used..]
  {
    assert cut.events + [] == cut.events;
  }

  /** The inner loop: cut complete events off the buffer until one ends the stream or none is left. */
  method CutEvents(buffer: Bytes, handle: Handler, ghost whole: Consumed) returns (cut: Consumed, rest: Bytes)
    requires Cutting(whole, Consumed([], 0, None), buffer, buffer, handle)
    ensures cut == whole && rest == buffer[cut.used..]
  {
    cut, rest := Consumed([], 0, None), buffer;
    var i := FirstBreak(rest);
    while cut.end.None? && i < |rest|
      invariant Cutting(whole, cut, buffer, rest, handle) && i == FirstBreak(rest)
      decreases |rest|
    {
      CutOne(whole, cut, buffer, rest, handle);
      cut := Then(cut, OneFrame(rest[..i], handle));
      rest := rest[i + 2..];
      i := FirstBreak(rest);
    }
    CutAll(whole, cut, buffer, rest, handle);
  }

  method CutBuffer(buffer: Bytes, handle: Handler) returns (cut: Consumed, rest: Bytes)
    ensures cut == Consume(buffer, handle) && rest == buffer[cut.used..]
  {
    CutNothing(buffer, handle);
    cut, rest := CutEvents(buffer, handle, Consume(buffer, handle));
  }

  /** After some chunks, continuing from the buffer gives the rest of the result. */
  ghost predicate Decoding(spec: Result, events: seq<Event>, buffer: Bytes, total: nat, chunks: seq<Bytes>,
                           limit: nat, handle: Handler) {
    var rest := Incremental(buffer, total, chunks, limit, handle);
    spec == Result(events + rest.events, rest.end)
  }

  lemma DecodeChunk(spec: Result, events: seq<Event>, buffer: Bytes, total: nat, chunks: seq<Bytes>,
                    limit: nat, handle: Handler)
    requires Decoding(spec, events, buffer, total, chunks, limit, handle) && chunks != []
    ensures var u := Crush(buffer + chunks[0]);
            var cut := Consume(u, handle);
            if total + |chunks[0]| > limit || |buffer| + |chunks[0]| > MAX_BUFFER then spec == Result(events, TooLarge)
            else if cut.end.Some? then spec == Result(events + cut.events, cut.end.value)
            else Decoding(spec, events + cut.events, u[cut.used..], total + |chunks[0]|, chunks[1..], limit, handle)
  {
    hide Consume;
    hide Crush;
    hide Incremental;
    IncrementalStep(buffer, total, chunks, limit, handle);
    var u := Crush(buffer + chunks[0]);
    var cut := Consume(u, handle);
    var rest := Incremental(u[cut.used..], total + |chunks[0]|, chunks[1..], limit, handle);
    Associate(events, cut.events, rest.events);
  }

  lemma DecodeEnd(spec: Result, events: seq<Event>, buffer: Bytes, total: nat, limit: nat, handle: Handler)
    requires Decoding(spec, events, buffer, total, [], limit, handle)
    ensures spec == Result(events, Interrupted)
  {
    NoChunks(buffer, total, limit, handle);
    Associate(events, [], []);
  }

  /** The outer loop over the chunks. */
  method DecodeChunks(chunks: seq<Bytes>, limit: nat, handle: Handler, ghost spec: Result)
    returns (events: seq<Event>, end: End)
    requires Decoding(spec, [], [], 0, chunks, limit, handle)
    ensures Result(events, end) == spec
  {
    hide Consume;
    hide Crush;
    hide Incremental;
    hide Decoding;
    var buffer: Bytes, total: nat, waiting := [], 0, chunks;
    events := [];
    while waiting != []
      invariant Decoding(spec, events, buffer, total, waiting, limit, handle)
      decreases |waiting|
    {
      var chunk := waiting[0];
      DecodeChunk(spec, events, buffer, total, waiting, limit, handle);
      total := total + |chunk|;
      if total > limit || |buffer| + |chunk| > MAX_BUFFER {
        return events, TooLarge;
      }
      var cut, rest := CutBuffer(Crush(buffer + chunk), handle);
      events, buffer, waiting := events + cut.events, rest, waiting[1..];
      if cut.end.Some? {
        return events, cut.end.value;
      }
    }
    DecodeEnd(spec, events, buffer, total, limit, handle);
    return events, Interrupted;
  }

  /** Events and end of a stream delivered in chunks; the size limits are checked before each chunk is decoded. */
  method ChatEvents(chunks: seq<Bytes>, limit: nat, parse: Parser) returns (events: seq<Event>, end: End)
    ensures Result(events, end) == Incremental([], 0, chunks, limit, FrameHandler(parse))
    ensures var handle := FrameHandler(parse);
            NoCrCrLf(Flat(chunks)) ==> Agrees([], Result(events, end), Flat(chunks), limit, handle)
    ensures ClosedProperly(events, end.Finished?)
  {
    var handle := FrameHandler(parse);
    ghost var spec := Incremental([], 0, chunks, limit, handle);
    assert [] + spec.events == spec.events;
    events, end := DecodeChunks(chunks, limit, handle, spec);
    DoneIsLast([], 0, chunks, limit, handle);
    if NoCrCrLf(Flat(chunks)) {
      ChunkIndependence(chunks, limit, handle);
    }
  }
}
