/**
 Exactly which streams decode the same however they are cut into chunks.

 The decoder normalises its buffer again with every chunk, so a run of CRs before an LF loses one more CR each
 time.  Inside a complete event that changes the event; after the last one it matters only if a blank line can
 come out of it.
 */
module SseSplits {
  import opened Options
  import opened Sse

  /** A reader that reports the length of every frame; it never ends a stream. */
  const LENGTHS := Handler((frame: Bytes) => Emit(|frame|))

  /** End of the last complete frame. */
  function FramesEnd(s: Bytes): (n: nat)
    ensures n <= |s| && (n > 0 ==> s[n - 1] == LF)
  {
    Consume(s, LENGTHS).used
  }

  /** CRs, if any, and then LF. */
  predicate StartsBlank(s: Bytes) {
    s != [] && (s[0] == LF || (s[0] == CR && StartsBlank(s[1..])))
  }

  /** No two LFs with nothing but CRs between them. */
  predicate Calm(s: Bytes) {
    s == [] || (Calm(s[1..]) && !(s[0] == LF && StartsBlank(s[1..])))
  }

  /** No CR CR LF up to the end of the last complete frame, and no blank line in the making after it. */
  ghost predicate Stable(stream: Bytes) {
    var u := Crush(stream);
    NoCrLf(u[..FramesEnd(u)]) && Calm(u[FramesEnd(u)..])
  }

  /** However the stream is cut, and whatever its events mean, the decoder gives the whole-stream reading. */
  ghost predicate SplitIndependent(stream: Bytes) {
    forall chunks, limit: nat, handle ::
      Flat(chunks) == stream && |stream| <= limit ==> Incremental([], 0, chunks, limit, handle) == Whole(stream, handle)
  }

  // ---------------------------------------------------------------- frames without meaning

  lemma {:induction false} FramesSame(s: Bytes, handle: Handler)
    ensures Consume(s, LENGTHS).end.None?
    ensures Consume(s, handle).end.None? ==> Consume(s, handle).used == FramesEnd(s)
    decreases |s|
  {
    hide Consume;
    hide FirstBreak;
    var i := FirstBreak(s);
    if i == |s| {
      ConsumeNone(s, handle);
      ConsumeNone(s, LENGTHS);
    } else {
      ConsumeFirst(s, i, handle);
      ConsumeFirst(s, i, LENGTHS);
      FramesSame(s[i + 2..], handle);
    }
  }

  /** What is left has no blank line, and what was cut off ends in one. */
  lemma {:induction false} RestHasNoBreak(s: Bytes, handle: Handler)
    ensures var k := Consume(s, handle);
            && (k.end.None? ==> FirstBreak(s[k.used..]) == |s| - k.used)
            && (k.used > 0 ==> k.used >= 2 && s[k.used - 2] == LF)
    decreases |s|
  {
    hide Consume;
    var i := FirstBreak(s);
    if i == |s| {
      ConsumeNone(s, handle);
      assert s[0..] == s;
    } else {
      ConsumeFirst(s, i, handle);
      var rest := s[i + 2..];
      RestHasNoBreak(rest, handle);
      DropDrop(s, i + 2, Consume(rest, handle).used);
    }
  }

  lemma {:induction false} FirstBreakLeast(s: Bytes, j: nat)
    requires j + 1 < |s| && s[j] == LF && s[j + 1] == LF
    ensures FirstBreak(s) <= j
  {
    if j > 0 && !(s[0] == LF && s[1] == LF) {
      FirstBreakLeast(s[1..], j - 1);
    }
  }

  // ---------------------------------------------------------------- calm

  lemma {:induction false} CalmHasNoBreak(s: Bytes)
    requires Calm(s)
    ensures FirstBreak(s) == |s|
  {
    if |s| >= 2 {
      assert s[1] == LF ==> StartsBlank(s[1..]);
      CalmHasNoBreak(s[1..]);
    }
  }

  lemma {:induction false} NormalIsCalm(s: Bytes)
    requires NoCrLf(s) && FirstBreak(s) == |s|
    ensures Calm(s)
  {
    if s != [] {
      assert forall i :: HasCrLfAt(s[1..], i) ==> HasCrLfAt(s, i + 1);
      NormalIsCalm(s[1..]);
      if s[0] == LF {
        NoBlankStart(s[1..]);
      }
    }
  }

  lemma {:induction false} NoBlankStart(s: Bytes)
    requires NoCrLf(s) && (s != [] ==> s[0] != LF)
    ensures !StartsBlank(s)
  {
    if |s| >= 2 && s[0] == CR {
      assert !HasCrLfAt(s, 0);
      assert forall i :: HasCrLfAt(s[1..], i) ==> HasCrLfAt(s, i + 1);
      NoBlankStart(s[1..]);
    }
  }

  lemma CrushHead(x: Bytes)
    requires x != []
    ensures Crush(x) == if HasCrLfAt(x, 0) then Crush(x[1..]) else [x[0]] + Crush(x[1..])
  {
  }

  lemma BlankHead(b: Byte, s: Bytes)
    ensures StartsBlank([b] + s) <==> b == LF || (b == CR && StartsBlank(s))
  {
    assert ([b] + s)[1..] == s;
  }

  lemma CalmHead(b: Byte, s: Bytes)
    ensures Calm([b] + s) <==> Calm(s) && !(b == LF && StartsBlank(s))
  {
    assert ([b] + s)[1..] == s;
  }

  lemma {:induction false} CrushBlank(x: Bytes, y: Bytes)
    ensures StartsBlank(Crush(x) + y) <==> StartsBlank(x + y)
    decreases |x|
  {
    hide StartsBlank;
    if x == [] {
      CrushNothing();
      assert Crush(x) + y == x + y;
    } else {
      var b, t := x[0], x[1..];
      CrushHead(x);
      CrushBlank(t, y);
      hide Crush;
      assert x + y == [b] + (t + y);
      BlankHead(b, t + y);
      if !HasCrLfAt(x, 0) {
        assert Crush(x) + y == [b] + (Crush(t) + y);
        BlankHead(b, Crush(t) + y);
      }
    }
  }

  lemma ConsConcat(x: Bytes, y: Bytes)
    requires x != []
    ensures x + y == [x[0]] + (x[1..] + y)
  {
  }

  lemma CalmCase(b: Byte, s: Bytes, c: Bytes)
    requires (Calm(c) <==> Calm(s)) && (StartsBlank(c) <==> StartsBlank(s))
    ensures Calm([b] + c) <==> Calm([b] + s)
    ensures b == CR ==> (Calm([b] + s) <==> Calm(s))
  {
    hide Calm;
    hide StartsBlank;
    CalmHead(b, s);
    CalmHead(b, c);
  }

  /** Normalising a front part neither makes nor breaks calm. */
  lemma {:induction false} CrushCalm(x: Bytes, y: Bytes)
    ensures Calm(Crush(x) + y) <==> Calm(x + y)
    decreases |x|
  {
    hide StartsBlank;
    hide Calm;
    if x == [] {
      CrushNothing();
      assert Crush(x) + y == x + y;
    } else {
      var t := x[1..];
      CrushHead(x);
      CrushCalm(t, y);
      CrushBlank(t, y);
      hide Crush;
      CalmCase(x[0], t + y, Crush(t) + y);
      ConsConcat(x, y);
      if !HasCrLfAt(x, 0) {
        ConsConcat(Crush(x), y);
        assert Crush(x)[1..] == Crush(t);
      }
    }
  }

  lemma {:induction false} CalmPrefix(x: Bytes, y: Bytes)
    requires Calm(x + y)
    ensures Calm(x)
    decreases |x|
  {
    if x != [] {
      assert (x + y)[1..] == x[1..] + y;
      CalmPrefix(x[1..], y);
      if x[0] == LF && StartsBlank(x[1..]) {
        BlankPrefix(x[1..], y);
      }
    }
  }

  lemma {:induction false} BlankPrefix(x: Bytes, y: Bytes)
    requires StartsBlank(x)
    ensures StartsBlank(x + y)
  {
    if x[0] != LF {
      assert (x + y)[1..] == x[1..] + y;
      BlankPrefix(x[1..], y);
    }
  }

  /** From a calm buffer on, nothing is ever emitted. */
  lemma {:induction false} CalmRun(buffer: Bytes, total: nat, chunks: seq<Bytes>, limit: nat, handle: Handler)
    requires Calm(buffer + Flat(chunks)) && |buffer| <= total
    requires total + |Flat(chunks)| <= limit && total + |Flat(chunks)| <= MAX_BUFFER
    ensures Incremental(buffer, total, chunks, limit, handle) == Result([], Interrupted)
    decreases |chunks|
  {
    hide Incremental;
    hide Consume;
    if chunks == [] {
      NoChunks(buffer, total, limit, handle);
    } else {
      var c, later := chunks[0], Flat(chunks[1..]);
      var u := Crush(buffer + c);
      assert buffer + Flat(chunks) == buffer + c + later;
      CrushCalm(buffer + c, later);
      CalmPrefix(u, later);
      CalmHasNoBreak(u);
      ConsumeNone(u, handle);
      IncrementalStep(buffer, total, chunks, limit, handle);
      assert u[0..] == u;
      CalmRun(u, total + |c|, chunks[1..], limit, handle);
    }
  }

  // ---------------------------------------------------------------- stable streams do not depend on the split

  /** The part of the stream that normalises to a given front ending in LF. */
  lemma {:induction false} SourceOf(stream: Bytes, n: nat) returns (m: nat)
    requires n <= |Crush(stream)| && (n > 0 ==> Crush(stream)[n - 1] == LF)
    ensures m <= |stream| && (m > 0 ==> stream[m - 1] == LF)
    ensures Crush(stream[..m]) == Crush(stream)[..n] && Crush(stream[m..]) == Crush(stream)[n..]
    decreases |stream|
  {
    if n == 0 {
      m := 0;
      CrushNothing();
      hide Crush;
      assert stream[..0] == [] && stream[0..] == stream && Crush(stream)[..0] == [] && Crush(stream)[0..] == Crush(stream);
    } else {
      var t, u := stream[1..], Crush(stream);
      CrushHead(stream);
      if HasCrLfAt(stream, 0) {
        var k := SourceOf(t, n);
        m := k + 1;
        SourceStep(stream, k);
      } else {
        var k := SourceOf(t, n - 1);
        m := k + 1;
        SourceStep(stream, k);
        hide Crush;
        ConsSlices(stream[0], Crush(t), n);
      }
    }
  }

  lemma ConsSlices(b: Byte, s: Bytes, n: nat)
    requires 0 < n <= |s| + 1
    ensures ([b] + s)[..n] == [b] + s[..n - 1] && ([b] + s)[n..] == s[n - 1..]
  {
  }

  lemma SourceStep(stream: Bytes, k: nat)
    requires stream != [] && k < |stream| && (k > 0 ==> stream[k] == LF)
    ensures var front := stream[..k + 1];
            Crush(front) == if HasCrLfAt(front, 0) then Crush(stream[1..][..k]) else [stream[0]] + Crush(stream[1..][..k])
    ensures stream[k + 1..] == stream[1..][k..]
  {
    assert stream[..k + 1][1..] == stream[1..][..k];
  }

  /** A source whose normal form consists of complete frames. */
  ghost predicate Framed(x: Bytes) {
    (x != [] ==> x[|x| - 1] == LF) && FramesEnd(Crush(x)) == |Crush(x)|
  }

  lemma CalmCrushed(y: Bytes)
    requires Calm(y)
    ensures Calm(Crush(y))
  {
    assert y + [] == y && Crush(y) + [] == Crush(y);
    CrushCalm(y, []);
  }

  lemma WholeOfFramed(x: Bytes, y: Bytes, handle: Handler)
    requires Framed(x) && Calm(y)
    ensures Whole(x + y, handle) == Ended(Consume(Crush(x), handle))
  {
    hide Consume;
    hide Crush;
    CrushConcat(x, y);
    CalmCrushed(y);
    FramesSame(Crush(x), handle);
    AddCalm(Crush(x), Crush(y), handle);
  }

  /** The buffer and the chunk up to the end of the frames join at a line end. */
  lemma JoinsCleanly(prefix: Bytes, c1: Bytes, y1: Bytes, used: nat)
    requires NoCrCrLf(prefix) && used <= |Crush(prefix)| && (used > 0 ==> Crush(prefix)[used - 1] == LF)
    requires Framed(prefix + c1)
    ensures var buffer := Crush(prefix)[used..];
            && Crush(buffer + (c1 + y1)) == Crush(buffer + c1) + Crush(y1)
            && Crush(prefix + c1) == Crush(prefix)[..used] + Crush(buffer + c1)
  {
    hide Crush;
    var buffer, x := Crush(prefix)[used..], prefix + c1;
    FrontIsFinal(prefix, c1, used);
    assert buffer + (c1 + y1) == (buffer + c1) + y1;
    CrushNothing();
    if x != [] {
      CrushLast(x);
    }
    if buffer + c1 != [] {
      CrushLast(buffer + c1);
    }
    CrushConcat(buffer + c1, y1);
  }

  lemma CrushNothing()
    ensures Crush([]) == []
  {
  }

  /** Text that never completes a frame, after text that is either cut off completely or ends the stream. */
  lemma AddCalm(z: Bytes, w: Bytes, handle: Handler)
    requires Calm(w) && (Consume(z, handle).end.None? ==> Consume(z, handle).used == |z|)
    ensures var kz := Consume(z, handle);
            Consume(z + w, handle) == kz && (kz.end.None? ==> (z + w)[kz.used..] == w)
  {
    hide Consume;
    var kz := Consume(z, handle);
    assert z + w == z[..kz.used] + (z[kz.used..] + w);
    ConsumeStable(z, z[kz.used..] + w, handle, kz, z + w);
    if kz.end.None? {
      assert z[kz.used..] + w == w;
      CalmHasNoBreak(w);
      ConsumeNone(w, handle);
      assert kz.events + [] == kz.events;
    }
  }

  /** The chunk in which the frames end. */
  lemma Crossing(prefix: Bytes, c1: Bytes, y1: Bytes, handle: Handler)
    requires NoCrCrLf(prefix) && Consume(Crush(prefix), handle).end.None? && Framed(prefix + c1) && Calm(y1)
    ensures var k, kx := Consume(Crush(prefix), handle), Consume(Crush(prefix + c1), handle);
            var u := Crush(Crush(prefix)[k.used..] + (c1 + y1));
            var next := Consume(u, handle);
            && k.events + next.events == kx.events && next.end == kx.end
            && (next.end.None? ==> u[next.used..] == Crush(y1))
  {
    hide Consume;
    hide Crush;
    var k := Consume(Crush(prefix), handle);
    var buffer := Crush(prefix)[k.used..];
    JoinsCleanly(prefix, c1, y1, k.used);
    Extend(prefix, c1, handle);
    CalmCrushed(y1);
    FramesSame(Crush(prefix + c1), handle);
    AddCalm(Crush(buffer + c1), Crush(y1), handle);
  }

  /** Frames in `x`, then calm `y`: any cutting of the rest of `x + y` gives the rest of the whole reading. */
  lemma {:induction false} StableRun(prefix: Bytes, chunks: seq<Bytes>, x: Bytes, y: Bytes, limit: nat, handle: Handler)
    requires prefix <= x && prefix + Flat(chunks) == x + y && NoCrCrLf(x) && Framed(x) && Calm(y)
    requires |x + y| <= limit && |x + y| <= MAX_BUFFER && Consume(Crush(prefix), handle).end.None?
    ensures var k := Consume(Crush(prefix), handle);
            var r := Incremental(Crush(prefix)[k.used..], |prefix|, chunks, limit, handle);
            Result(k.events + r.events, r.end) == Ended(Consume(Crush(x), handle))
    decreases |chunks|
  {
    hide Consume;
    hide Crush;
    hide Incremental;
    hide Framed;
    var k := Consume(Crush(prefix), handle);
    var buffer := Crush(prefix)[k.used..];
    assert prefix + x[|prefix|..] == x;
    NoCrCrLfPrefix(prefix, x[|prefix|..]);
    if chunks == [] {
      assert prefix == x;
      NoChunks(buffer, |prefix|, limit, handle);
      Associate(k.events, [], []);
    } else {
      var c, later := chunks[0], Flat(chunks[1..]);
      assert prefix + Flat(chunks) == prefix + c + later;
      IncrementalStep(buffer, |prefix|, chunks, limit, handle);
      if |prefix + c| <= |x| {
        StableInside(prefix, chunks, x, y, limit, handle);
      } else {
        StableCrossing(prefix, chunks, x, y, limit, handle);
      }
    }
  }

  lemma InsideChunk(prefix: Bytes, c: Bytes, later: Bytes, x: Bytes, y: Bytes) returns (tail: Bytes)
    requires prefix + (c + later) == x + y && |prefix + c| <= |x|
    ensures x == (prefix + c) + tail && prefix + c <= x && (prefix + c) + later == x + y
  {
    var prefix' := prefix + c;
    assert prefix' + later == x + y;
    assert prefix' == (x + y)[..|prefix'|] == x[..|prefix'|];
    tail := x[|prefix'|..];
  }

  /** A chunk that stays within the frames. */
  lemma StableInside(prefix: Bytes, chunks: seq<Bytes>, x: Bytes, y: Bytes, limit: nat, handle: Handler)
    requires prefix <= x && chunks != [] && prefix + Flat(chunks) == x + y && |prefix + chunks[0]| <= |x|
    requires NoCrCrLf(x) && Framed(x) && Calm(y)
    requires |x + y| <= limit && |x + y| <= MAX_BUFFER && Consume(Crush(prefix), handle).end.None?
    ensures var k := Consume(Crush(prefix), handle);
            var r := Incremental(Crush(prefix)[k.used..], |prefix|, chunks, limit, handle);
            Result(k.events + r.events, r.end) == Ended(Consume(Crush(x), handle))
    decreases |chunks|, 0
  {
    hide Consume;
    hide Crush;
    hide Incremental;
    hide Framed;
    var k := Consume(Crush(prefix), handle);
    var buffer := Crush(prefix)[k.used..];
    var c, later := chunks[0], Flat(chunks[1..]);
    var prefix' := prefix + c;
    var tail := InsideChunk(prefix, c, later, x, y);
    NoCrCrLfPrefix(prefix', tail);
    NoCrCrLfPrefix(prefix, c);
    IncrementalStep(buffer, |prefix|, chunks, limit, handle);
    var next := Consume(Crush(buffer + c), handle);
    Extend(prefix, c, handle);
    if next.end.Some? {
      Extend(prefix', tail, handle);
    } else {
      NextBuffer(prefix, c, handle);
      StableRun(prefix', chunks[1..], x, y, limit, handle);
      var rest := Incremental(Crush(buffer + c)[next.used..], |prefix'|, chunks[1..], limit, handle);
      Associate(k.events, next.events, rest.events);
    }
  }

  lemma CutChunk(prefix: Bytes, c: Bytes, later: Bytes, x: Bytes, y: Bytes) returns (c1: Bytes, y1: Bytes)
    requires prefix <= x && prefix + (c + later) == x + y && |prefix + c| > |x|
    ensures c == c1 + y1 && x == prefix + c1 && y == y1 + later
  {
    var n := |x| - |prefix|;
    c1, y1 := c[..n], c[n..];
    assert x == (x + y)[..|x|] == (prefix + (c + later))[..|x|] == prefix + c1;
    assert y == (x + y)[|x|..] == (prefix + (c + later))[|x|..] == y1 + later;
  }

  /** The chunk that leaves them. */
  lemma StableCrossing(prefix: Bytes, chunks: seq<Bytes>, x: Bytes, y: Bytes, limit: nat, handle: Handler)
    requires prefix <= x && chunks != [] && prefix + Flat(chunks) == x + y && |prefix + chunks[0]| > |x|
    requires NoCrCrLf(x) && Framed(x) && Calm(y)
    requires |x + y| <= limit && |x + y| <= MAX_BUFFER && Consume(Crush(prefix), handle).end.None?
    ensures var k := Consume(Crush(prefix), handle);
            var r := Incremental(Crush(prefix)[k.used..], |prefix|, chunks, limit, handle);
            Result(k.events + r.events, r.end) == Ended(Consume(Crush(x), handle))
  {
    hide Consume;
    hide Crush;
    hide Incremental;
    hide Framed;
    hide Calm;
    var k := Consume(Crush(prefix), handle);
    var buffer := Crush(prefix)[k.used..];
    var c, later := chunks[0], Flat(chunks[1..]);
    var c1, y1 := CutChunk(prefix, c, later, x, y);
    NoCrCrLfPrefix(prefix, c1);
    CalmPrefix(y1, later);
    Crossing(prefix, c1, y1, handle);
    IncrementalStep(buffer, |prefix|, chunks, limit, handle);
    var next := Consume(Crush(buffer + c), handle);
    if next.end.None? {
      CrushCalm(y1, later);
      CalmRun(Crush(y1), |prefix + c|, chunks[1..], limit, handle);
      Associate(k.events, next.events, []);
      Associate(next.events, [], []);
    }
  }

  lemma StableIsIndependent(stream: Bytes)
    requires |stream| <= MAX_BUFFER && Stable(stream)
    ensures SplitIndependent(stream)
  {
    var u := Crush(stream);
    var n := FramesEnd(u);
    var m := SourceOf(stream, n);
    var x, y := stream[..m], stream[m..];
    assert stream == x + y;
    SourceIsFramed(stream, x, y, n);
    forall chunks, limit: nat, handle | Flat(chunks) == stream && |stream| <= limit
      ensures Incremental([], 0, chunks, limit, handle) == Whole(stream, handle)
    {
      FromStart(chunks, x, y, limit, handle);
    }
  }

  lemma SourceIsFramed(stream: Bytes, x: Bytes, y: Bytes, n: nat)
    requires Stable(stream) && n == FramesEnd(Crush(stream)) && (x != [] ==> x[|x| - 1] == LF)
    requires Crush(x) == Crush(stream)[..n] && Crush(y) == Crush(stream)[n..]
    ensures NoCrCrLf(x) && Framed(x) && Calm(y)
  {
    var u := Crush(stream);
    CrushClean(x);
    FramesOfFront(u);
    assert Crush(y) + [] == Crush(y) && y + [] == y;
    CrushCalm(y, []);
  }

  lemma FramesOfFront(u: Bytes)
    ensures FramesEnd(u[..FramesEnd(u)]) == FramesEnd(u)
  {
    hide Consume;
    var k := Consume(u, LENGTHS);
    var front := u[..k.used];
    assert front + [] == front;
    ConsumeStable(u, [], LENGTHS, k, front);
    FramesSame(u, LENGTHS);
    ConsumeNone([], LENGTHS);
  }

  lemma FromStart(chunks: seq<Bytes>, x: Bytes, y: Bytes, limit: nat, handle: Handler)
    requires Flat(chunks) == x + y && NoCrCrLf(x) && Framed(x) && Calm(y) && |x + y| <= limit && |x + y| <= MAX_BUFFER
    ensures Incremental([], 0, chunks, limit, handle) == Whole(x + y, handle)
  {
    hide Consume;
    hide Incremental;
    hide Framed;
    hide Calm;
    WholeOfFramed(x, y, handle);
    CrushNothing();
    ConsumeNone([], handle);
    assert [] + Flat(chunks) == x + y;
    StableRun([], chunks, x, y, limit, handle);
    var r := Incremental([], 0, chunks, limit, handle);
    assert [] + r.events == r.events;
  }

  // ---------------------------------------------------------------- and no others

  /** The text before the first CR CR LF. */
  lemma {:induction false} FirstCrCrLf(stream: Bytes, i: nat) returns (a: Bytes, rest: Bytes)
    requires HasCrCrLfAt(stream, i)
    ensures stream == a + [CR, CR, LF] + rest && NoCrCrLf(a + [CR])
    decreases i
  {
    if j :| 0 <= j < i && HasCrCrLfAt(stream, j) {
      a, rest := FirstCrCrLf(stream, j);
    } else {
      a, rest := stream[..i], stream[i + 3..];
      assert stream == a + [CR, CR, LF] + rest;
      assert forall k :: HasCrCrLfAt(a + [CR], k) ==> k < i && HasCrCrLfAt(stream, k);
    }
  }

  /** A blank line that is not in the front reaches beyond it. */
  lemma {:induction false} BreakBeyond(front: Bytes, rest: Bytes)
    requires FirstBreak(front) == |front|
    ensures FirstBreak(front + rest) + 1 >= |front|
  {
    if |front| >= 2 {
      assert (front + rest)[1..] == front[1..] + rest;
      BreakBeyond(front[1..], rest);
    }
  }

  lemma FirstLength(s: Bytes)
    requires FirstBreak(s) < |s|
    ensures Consume(s, LENGTHS).events != [] && Consume(s, LENGTHS).events[0] == Message(FirstBreak(s))
  {
    hide FirstBreak;
    ConsumeFirst(s, FirstBreak(s), LENGTHS);
    hide Consume;
  }

  /** Reading one more normal form of the same text: the first frame is shorter. */
  lemma ShorterFrame(d: Bytes, rest: Bytes)
    requires FirstBreak(d + [CR, LF]) == |d| + 2 && FirstBreak(d + [CR, LF] + rest) < |d| + 2 + |rest|
    ensures var long, short := Consume(d + [CR, LF] + rest, LENGTHS), Consume(d + [LF] + rest, LENGTHS);
            long.events != [] && short.events != [] && long.events[0] != short.events[0]
  {
    hide Consume;
    hide FirstBreak;
    var front := d + [CR, LF];
    BreakBeyond(front, rest);
    BreakIsBlank(front + rest);
    var i := FirstBreak(front + rest);
    ShiftedBreak(d, rest, i);
    FirstLength(front + rest);
    FirstLength(d + [LF] + rest);
  }

  lemma BreakIsBlank(s: Bytes)
    requires FirstBreak(s) < |s|
    ensures var i := FirstBreak(s); i + 1 < |s| && s[i] == LF && s[i + 1] == LF
  {
  }

  lemma ShiftedBreak(d: Bytes, rest: Bytes, i: nat)
    requires var w := d + [CR, LF] + rest; |d| < i && i + 1 < |w| && w[i] == LF && w[i + 1] == LF
    ensures FirstBreak(d + [LF] + rest) < i < |d + [LF] + rest|
  {
    hide FirstBreak;
    var w, w' := d + [CR, LF] + rest, d + [LF] + rest;
    assert forall k :: |d| < k < |w| ==> w[k] == w'[k - 1];
    FirstBreakLeast(w', i - 1);
  }

  /** The text up to the first CR CR LF, normalised once and twice. */
  lemma NormalisedTwice(a: Bytes, rest: Bytes, used: nat)
    requires NoCrCrLf(a + [CR]) && used <= |Crush(a)|
    ensures var e, s := Crush(a), a + [CR, CR, LF];
            var d := e[used..];
            && Crush(s) == e + [CR, LF] && Crush(s + rest) == e + [CR, LF] + Crush(rest)
            && Crush(d + [CR, LF] + rest) == d + [LF] + Crush(rest)
            && NoCrLf(e + [CR])
  {
    var e := Crush(a);
    var d := e[used..];
    assert forall i :: HasCrCrLfAt(a, i) ==> HasCrCrLfAt(a + [CR], i);
    CrushClean(a);
    CrushEndings();
    CrushConcat(a, [CR, CR, LF]);
    assert a + [CR, CR, LF] + rest == (a + [CR, CR, LF]) + rest;
    CrushConcat(a + [CR, CR, LF], rest);
    assert forall i :: HasCrLfAt(d, i) ==> HasCrLfAt(e, used + i);
    CrushFixed(d);
    CrushConcat(d, [CR, LF]);
    CrushConcat(d + [CR, LF], rest);
    assert forall i :: HasCrLfAt(e + [CR], i) ==> HasCrLfAt(e, i);
  }

  lemma CrushEndings()
    ensures Crush([CR, CR, LF]) == [CR, LF] && Crush([CR, LF]) == [LF]
  {
    var one, two := [LF], [CR, LF];
    assert one[1..] == [] && two[1..] == one && [CR, CR, LF][1..] == two;
    assert Crush(one) == one && Crush(two) == one;
  }

  /** Cut right after the first CR CR LF: the second chunk normalises it away. */
  lemma CutAfterCrCrLf(a: Bytes, rest: Bytes, limit: nat)
    requires NoCrCrLf(a + [CR])
    requires var stream := a + [CR, CR, LF] + rest;
             && |stream| <= limit && |stream| <= MAX_BUFFER
             && FramesEnd(Crush(stream)) >= |Crush(a)| + 2
    ensures var stream := a + [CR, CR, LF] + rest;
            Incremental([], 0, [a + [CR, CR, LF], rest], limit, LENGTHS) != Whole(stream, LENGTHS)
  {
    hide Consume;
    hide Crush;
    hide Incremental;
    hide FirstBreak;
    var s, e := a + [CR, CR, LF], Crush(a);
    var u := e + [CR, LF];
    NormalisedTwice(a, rest, 0);
    var k := Consume(u, LENGTHS);
    FramesSame(u, LENGTHS);
    RestHasNoBreak(u, LENGTHS);
    assert k.used <= |e|;
    var d, tail := e[k.used..], Crush(rest);
    NormalisedTwice(a, rest, k.used);
    assert u[k.used..] == d + [CR, LF] && u + tail == u[..k.used] + (d + [CR, LF] + tail);
    ConsumeStable(u, d + [CR, LF] + tail, LENGTHS, k, u + tail);
    FramesSame(u + tail, LENGTHS);
    UsedMeansBreak(d + [CR, LF] + tail);
    ShorterFrame(d, tail);
    TwoChunks(s, rest, limit, u, k, d + [LF] + tail);
    var long, short := Consume(d + [CR, LF] + tail, LENGTHS), Consume(d + [LF] + tail, LENGTHS);
    assert (k.events + long.events)[|k.events|] == long.events[0];
    assert (k.events + short.events)[|k.events|] == short.events[0];
  }

  lemma UsedMeansBreak(s: Bytes)
    ensures FramesEnd(s) > 0 ==> FirstBreak(s) < |s|
  {
    hide Consume;
    if FirstBreak(s) == |s| {
      ConsumeNone(s, LENGTHS);
    }
  }

  /** The decoder over two chunks. */
  lemma TwoChunks(s: Bytes, rest: Bytes, limit: nat, u: Bytes, k: Consumed, v: Bytes)
    requires |s + rest| <= limit && |s + rest| <= MAX_BUFFER && u == Crush(s) && k == Consume(u, LENGTHS)
    requires v == Crush(u[k.used..] + rest)
    ensures Incremental([], 0, [s, rest], limit, LENGTHS).events == k.events + Consume(v, LENGTHS).events
  {
    hide Consume;
    hide Crush;
    hide Incremental;
    FramesSame(u, LENGTHS);
    FramesSame(v, LENGTHS);
    var chunks := [s, rest];
    assert [] + s == s && chunks[1..] == [rest];
    IncrementalStep([], 0, chunks, limit, LENGTHS);
    OneChunk(u[k.used..], |s|, rest, limit, LENGTHS);
  }

  // ---------------------------------------------------------------- a blank line in the making

  function Empties(m: nat): seq<Bytes> {
    seq(m, _ => [])
  }

  /** After enough empty chunks the blank line is there. */
  lemma {:induction false} Restless(r: Bytes, total: nat, limit: nat) returns (m: nat)
    requires !Calm(r) && FirstBreak(r) == |r| && |r| <= total <= limit && total <= MAX_BUFFER
    ensures Incremental(r, total, Empties(m), limit, LENGTHS).events != []
    decreases |r|
  {
    hide Incremental;
    hide Consume;
    hide FirstBreak;
    var u := Crush(r);
    RestlessShrinks(r);
    assert r + [] == r;
    var k := Consume(u, LENGTHS);
    FramesSame(u, LENGTHS);
    if FirstBreak(u) < |u| {
      m := 1;
      FirstLength(u);
      assert Empties(1) == [[]];
      OneChunk(r, total, [], limit, LENGTHS);
    } else {
      ConsumeNone(u, LENGTHS);
      var n := Restless(u, total, limit);
      m := n + 1;
      assert Empties(m)[0] == [] && Empties(m)[1..] == Empties(n) && u[0..] == u;
      IncrementalStep(r, total, Empties(m), limit, LENGTHS);
    }
  }

  lemma RestlessShrinks(r: Bytes)
    requires !Calm(r) && FirstBreak(r) == |r|
    ensures |Crush(r)| < |r| && !Calm(Crush(r))
  {
    hide Calm;
    if NoCrLf(r) {
      NormalIsCalm(r);
    }
    CrushFixed(r);
    assert r + [] == r && Crush(r) + [] == Crush(r);
    CrushCalm(r, []);
  }

  lemma {:induction false} FlatEmpties(m: nat)
    ensures Flat(Empties(m)) == []
  {
    if m > 0 {
      assert Empties(m)[1..] == Empties(m - 1);
      FlatEmpties(m - 1);
    }
  }

  /** The whole stream at once, then empty chunks. */
  lemma TrailingBlank(stream: Bytes) returns (chunks: seq<Bytes>)
    requires |stream| <= MAX_BUFFER
    requires !Calm(Crush(stream)[FramesEnd(Crush(stream))..])
    ensures Flat(chunks) == stream
    ensures Incremental([], 0, chunks, |stream|, LENGTHS) != Whole(stream, LENGTHS)
  {
    hide Incremental;
    hide Consume;
    hide FirstBreak;
    var u := Crush(stream);
    var k := Consume(u, LENGTHS);
    FramesSame(u, LENGTHS);
    RestHasNoBreak(u, LENGTHS);
    var m := Restless(u[k.used..], |stream|, |stream|);
    chunks := [stream] + Empties(m);
    FlatEmpties(m);
    assert chunks[1..] == Empties(m) && [] + stream == stream && stream + [] == stream;
    IncrementalStep([], 0, chunks, |stream|, LENGTHS);
  }

  lemma UnstableDepends(stream: Bytes) returns (chunks: seq<Bytes>)
    requires |stream| <= MAX_BUFFER && !Stable(stream)
    ensures Flat(chunks) == stream && Incremental([], 0, chunks, |stream|, LENGTHS) != Whole(stream, LENGTHS)
  {
    hide Incremental;
    hide Consume;
    var u := Crush(stream);
    if !Calm(u[FramesEnd(u)..]) {
      chunks := TrailingBlank(stream);
    } else {
      chunks := BrokenFrame(stream);
    }
  }

  lemma BrokenFrame(stream: Bytes) returns (chunks: seq<Bytes>)
    requires |stream| <= MAX_BUFFER && !NoCrLf(Crush(stream)[..FramesEnd(Crush(stream))])
    ensures Flat(chunks) == stream && Incremental([], 0, chunks, |stream|, LENGTHS) != Whole(stream, LENGTHS)
  {
    hide Incremental;
    hide Consume;
    hide Crush;
    var u := Crush(stream);
    var n := FramesEnd(u);
    var i :| HasCrLfAt(u[..n], i);
    assert HasCrLfAt(u, i);
    CrushClean(stream);
    var j :| HasCrCrLfAt(stream, j);
    var a, rest := FirstCrCrLf(stream, j);
    NormalisedTwice(a, rest, 0);
    var e := Crush(a);
    assert i < |e| ==> HasCrLfAt(e + [CR], i);
    CutAfterCrCrLf(a, rest, |stream|);
    chunks := [a + [CR, CR, LF], rest];
    assert chunks[1..] == [rest] && chunks[1..][1..] == [] && rest + [] == rest;
    assert Flat(chunks[1..]) == rest + Flat(chunks[1..][1..]);
  }

  /** The exact condition: a stream decodes the same under every split if and only if it is stable. */
  lemma IndependentIffStable(stream: Bytes)
    requires |stream| <= MAX_BUFFER
    ensures SplitIndependent(stream) <==> Stable(stream)
  {
    hide Incremental;
    hide Stable;
    if Stable(stream) {
      StableIsIndependent(stream);
    } else {
      var chunks := UnstableDepends(stream);
      assert !SplitIndependent(stream);
    }
  }
}
