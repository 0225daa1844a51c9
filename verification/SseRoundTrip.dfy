/**
 What the decoder delivers: the round trip from payload texts to events.

 A provider that sends each payload as one `data:` line followed by a blank line, and `[DONE]` at the end, has
 every payload delivered once and in order, however the stream is cut into chunks.
 */
module SseRoundTrip {
  import opened Options
  import opened Sse

  /** A payload text: one line, which neither starts with a space nor ends with a CR. */
  predicate Clean(text: Bytes) {
    LF !in text && (text != [] ==> text[0] != SPACE && text[|text| - 1] != CR)
  }

  function Line(text: Bytes): Bytes {
    DATA + [SPACE] + text
  }

  function Frame(text: Bytes): Bytes {
    Line(text) + [LF, LF]
  }

  /** The stream for a list of payload texts and a last one. */
  function Encode(texts: seq<Bytes>, last: Bytes): Bytes {
    if texts == [] then Frame(last) else Frame(texts[0]) + Encode(texts[1..], last)
  }

  /** Texts that the parser takes, none of them the closing mark. */
  ghost predicate Sendable(texts: seq<Bytes>, parse: Parser) {
    forall i :: 0 <= i < |texts| ==> Clean(texts[i]) && texts[i] != DONE && parse(texts[i]).Good?
  }

  /** One message for each text, in order. */
  function Messages(texts: seq<Bytes>, parse: Parser): seq<Event> {
    if texts == [] then []
    else match parse(texts[0])
      case Good(payload) => [Message(payload)] + Messages(texts[1..], parse)
      case Bad(_) => []
  }

  // ---------------------------------------------------------------- one frame

  lemma {:induction false} LinesJoin(x: Bytes, y: Bytes)
    requires LF !in x
    ensures Lines(x + [LF] + y) == [x] + Lines(y) && Lines(x) == [x]
  {
    if x == [] {
      assert x + [LF] + y == [LF] + y && ([LF] + y)[1..] == y;
    } else {
      assert (x + [LF] + y)[1..] == x[1..] + [LF] + y;
      LinesJoin(x[1..], y);
      assert [x[0]] + x[1..] == x;
    }
  }

  lemma StripNothing(text: Bytes)
    requires Clean(text)
    ensures StripSpaces([SPACE] + text) == text
  {
    assert ([SPACE] + text)[1..] == text;
  }

  lemma ValuesOf(text: Bytes, rest: seq<Bytes>)
    requires Clean(text)
    ensures Values([Line(text)] + rest) == [text] + Values(rest)
  {
    StripNothing(text);
    assert Line(text)[5..] == [SPACE] + text && DATA <= Line(text);
    assert ([Line(text)] + rest)[1..] == rest;
  }

  /** One `data:` line is one message with exactly that payload. */
  lemma LineMeans(text: Bytes, parse: Parser)
    requires Clean(text)
    ensures Handle(Line(text), parse) ==
            if text == DONE then Last
            else match parse(text) case Good(payload) => Emit(payload) case Bad(code) => Refuse(code)
  {
    LinesJoin(Line(text), []);
    ValuesOf(text, []);
    assert [Line(text)] + [] == [Line(text)] && Values([]) == [];
  }

  /** Several `data:` lines are one message, joined by LF. */
  function DataLines(texts: seq<Bytes>): Bytes
    requires texts != []
  {
    if |texts| == 1 then Line(texts[0]) else Line(texts[0]) + [LF] + DataLines(texts[1..])
  }

  lemma {:induction false} DataLinesValues(texts: seq<Bytes>)
    requires texts != [] && forall i :: 0 <= i < |texts| ==> Clean(texts[i])
    ensures Values(Lines(DataLines(texts))) == texts
    decreases |texts|
  {
    LinesJoin(Line(texts[0]), if |texts| == 1 then [] else DataLines(texts[1..]));
    if |texts| == 1 {
      ValuesOf(texts[0], []);
      assert [Line(texts[0])] + [] == [Line(texts[0])] && Values([]) == [] && [texts[0]] == texts;
    } else {
      DataLinesValues(texts[1..]);
      ValuesOf(texts[0], Lines(DataLines(texts[1..])));
    }
  }

  lemma {:induction false} JoinedLines(texts: seq<Bytes>)
    requires texts != [] && forall i :: 0 <= i < |texts| ==> LF !in texts[i]
    ensures Lines(Joined(texts)) == texts
    decreases |texts|
  {
    LinesJoin(texts[0], if |texts| == 1 then [] else Joined(texts[1..]));
    if |texts| == 1 {
      assert [texts[0]] == texts;
    } else {
      JoinedLines(texts[1..]);
    }
  }

  lemma {:induction false} LinesDetermine(x: Bytes, y: Bytes)
    requires Lines(x) == Lines(y)
    ensures x == y
    decreases |x| + |y|
  {
    if x == [] || y == [] {
      assert (x == [] || Lines(x) != [[]]) && (y == [] || Lines(y) != [[]]);
    } else {
      assert x[0] == LF <==> Lines(x)[0] == [];
      assert y[0] == LF <==> Lines(y)[0] == [];
      if x[0] == LF {
        assert Lines(x)[1..] == Lines(x[1..]) && Lines(y)[1..] == Lines(y[1..]);
      } else {
        assert Lines(x)[0][0] == x[0] && Lines(y)[0][0] == y[0];
        assert Lines(x)[0][1..] == Lines(x[1..])[0] && Lines(y)[0][1..] == Lines(y[1..])[0];
        assert Lines(x)[1..] == Lines(x[1..])[1..] && Lines(y)[1..] == Lines(y[1..])[1..];
        assert Lines(x[1..]) == [Lines(x[1..])[0]] + Lines(x[1..])[1..];
        assert Lines(y[1..]) == [Lines(y[1..])[0]] + Lines(y[1..])[1..];
      }
      LinesDetermine(x[1..], y[1..]);
    }
  }

  /** Several `data:` lines are one message: the value whose lines they are. */
  lemma LinesMean(texts: seq<Bytes>, value: Bytes, parse: Parser)
    requires texts != [] && (forall i :: 0 <= i < |texts| ==> Clean(texts[i])) && Lines(value) == texts
    ensures Handle(DataLines(texts), parse) ==
            if value == DONE then Last
            else match parse(value) case Good(payload) => Emit(payload) case Bad(code) => Refuse(code)
  {
    DataLinesValues(texts);
    JoinedLines(texts);
    LinesDetermine(value, Joined(texts));
  }

  /** A frame changes nothing exactly if none of its lines starts with `data:`. */
  lemma {:induction false} NoValuesIff(lines: seq<Bytes>)
    ensures Values(lines) == [] <==> forall i :: 0 <= i < |lines| ==> !(DATA <= lines[i])
  {
    if lines != [] {
      NoValuesIff(lines[1..]);
      assert forall i :: 1 <= i < |lines| ==> lines[i] == lines[1..][i - 1];
    }
  }

  lemma IgnoredIff(frame: Bytes, parse: Parser)
    ensures Handle(frame, parse).Ignore? <==> forall i :: 0 <= i < |Lines(frame)| ==> !(DATA <= Lines(frame)[i])
  {
    NoValuesIff(Lines(frame));
  }

  lemma {:induction false} StripAll(spaces: nat, text: Bytes)
    requires Clean(text)
    ensures StripSpaces(seq(spaces, _ => SPACE) + text) == text
  {
    var padded := seq(spaces, _ => SPACE) + text;
    if spaces == 0 {
      assert padded == text;
    } else {
      assert padded[1..] == seq(spaces - 1, _ => SPACE) + text;
      StripAll(spaces - 1, text);
    }
  }

  /** The number of spaces after the colon does not matter. */
  lemma SpacesIgnored(spaces: nat, text: Bytes, parse: Parser)
    requires Clean(text)
    ensures Handle(DATA + (seq(spaces, _ => SPACE) + text), parse) == Handle(Line(text), parse)
  {
    var padded := seq(spaces, _ => SPACE) + text;
    var line := DATA + padded;
    StripAll(spaces, text);
    LinesJoin(line, []);
    LinesJoin(Line(text), []);
    ValuesOf(text, []);
    var one: seq<Bytes> := [line];
    assert line[5..] == padded && DATA <= line && one[1..] == [] && [Line(text)] + [] == [Line(text)];
    assert Values(one) == [text] + Values([]);
  }

  // ---------------------------------------------------------------- the stream

  /** No CR LF anywhere in the encoded stream, so normalising leaves it alone. */
  lemma FrameIsPlain(text: Bytes)
    requires Clean(text)
    ensures NoCrLf(Frame(text)) && FirstBreak(Frame(text)) == |Line(text)|
    ensures Frame(text)[|Frame(text)| - 1] == LF
  {
    NoBreakIn(Line(text));
    var frame := Frame(text);
    forall i | 0 <= i < |frame| - 1 && frame[i + 1] == LF ensures frame[i] != CR {
      assert i + 1 >= |Line(text)|;
    }
  }

  lemma {:induction false} NoBreakIn(x: Bytes)
    requires LF !in x
    ensures FirstBreak(x + [LF, LF]) == |x|
  {
    if x != [] {
      assert (x + [LF, LF])[1..] == x[1..] + [LF, LF];
      NoBreakIn(x[1..]);
    }
  }

  lemma NoCrLfConcat(x: Bytes, y: Bytes)
    requires NoCrLf(x) && NoCrLf(y) && x != [] && x[|x| - 1] == LF
    ensures NoCrLf(x + y)
  {
    forall i ensures !HasCrLfAt(x + y, i) {
      assert !HasCrLfAt(x, i) && !HasCrLfAt(y, i - |x|);
    }
  }

  lemma {:induction false} EncodedIsPlain(texts: seq<Bytes>, last: Bytes)
    requires Clean(last) && forall i :: 0 <= i < |texts| ==> Clean(texts[i])
    ensures var e := Encode(texts, last); NoCrLf(e) && e != [] && e[|e| - 1] == LF
    decreases |texts|
  {
    FrameIsPlain(last);
    if texts != [] {
      FrameIsPlain(texts[0]);
      EncodedIsPlain(texts[1..], last);
      NoCrLfConcat(Frame(texts[0]), Encode(texts[1..], last));
    }
  }

  lemma PrefixIsPlain(u: Bytes, v: Bytes)
    requires NoCrLf(u + v)
    ensures Crush(u) == u
  {
    assert forall i :: HasCrLfAt(u, i) ==> HasCrLfAt(u + v, i);
    CrushFixed(u);
  }

  /** A front of a stream that does not reach the first blank line has none. */
  lemma {:induction false} ShortFront(u: Bytes, v: Bytes)
    requires FirstBreak(u + v) < |u + v| && |u| < FirstBreak(u + v) + 2
    ensures FirstBreak(u) == |u|
  {
    if |u| >= 2 {
      assert (u + v)[1..] == u[1..] + v;
      ShortFront(u[1..], v);
    }
  }

  /** And one that reaches it has the same. */
  lemma {:induction false} LongFront(u: Bytes, v: Bytes)
    requires FirstBreak(u + v) < |u + v| && |u| >= FirstBreak(u + v) + 2
    ensures FirstBreak(u) == FirstBreak(u + v)
  {
    if FirstBreak(u + v) != 0 {
      assert (u + v)[1..] == u[1..] + v;
      LongFront(u[1..], v);
    }
  }

  lemma FrameBreak(text: Bytes, w: Bytes)
    requires Clean(text)
    ensures FirstBreak(Frame(text) + w) == |Line(text)| && (Frame(text) + w)[..|Line(text)|] == Line(text)
    ensures (Frame(text) + w)[|Line(text)| + 2..] == w
  {
    FrameIsPlain(text);
    FirstBreakStable(Frame(text), w);
    assert Frame(text)[..|Line(text)| + 2] == Frame(text);
  }

  /** A complete frame at the front is cut off and handled. */
  lemma ConsumeOne(text: Bytes, w: Bytes, handle: Handler)
    requires Clean(text)
    ensures Consume(Frame(text) + w, handle) == Then(OneFrame(Line(text), handle), Consume(w, handle))
  {
    FrameBreak(text, w);
    ConsumeFirst(Frame(text) + w, |Line(text)|, handle);
  }

  /** A frame without a `data:` line changes nothing. */
  lemma IgnoredFrame(frame: Bytes, w: Bytes, parse: Parser)
    requires FirstBreak(frame + [LF, LF]) == |frame|
    requires forall i :: 0 <= i < |Lines(frame)| ==> !(DATA <= Lines(frame)[i])
    ensures var k, rest := Consume(frame + [LF, LF] + w, FrameHandler(parse)), Consume(w, FrameHandler(parse));
            k.events == rest.events && k.end == rest.end && k.used == |frame| + 2 + rest.used
  {
    var s := frame + [LF, LF];
    IgnoredIff(frame, parse);
    FirstBreakStable(s, w);
    assert s[..|frame| + 2] == s && (s + w)[..|frame|] == frame && (s + w)[|frame| + 2..] == w;
    ConsumeFirst(s + w, |frame|, FrameHandler(parse));
  }

  /** The last text ends the stream. */
  ghost predicate Ends(last: Bytes, parse: Parser) {
    Clean(last) && (last == DONE || parse(last).Bad?)
  }

  /** Its share of the result. */
  function Closing(last: Bytes, parse: Parser): Result {
    if last == DONE then Result([LastEvent], Finished)
    else match parse(last)
      case Good(payload) => Result([Message(payload)], Interrupted)
      case Bad(code) => Result([], Rejected(code))
  }

  lemma SendableRest(texts: seq<Bytes>, parse: Parser)
    requires Sendable(texts, parse) && texts != []
    ensures Sendable(texts[1..], parse) && Clean(texts[0]) && texts[0] != DONE && parse(texts[0]).Good?
  {
  }

  /** Once everything is there, everything is delivered, and what follows is not looked at. */
  lemma {:induction false} ConsumeAll(texts: seq<Bytes>, last: Bytes, w: Bytes, parse: Parser)
    requires Sendable(texts, parse) && Ends(last, parse)
    ensures var k := Consume(Encode(texts, last) + w, FrameHandler(parse));
            var closing := Closing(last, parse);
            k.events == Messages(texts, parse) + closing.events && k.end == Some(closing.end)
    decreases |texts|
  {
    hide Consume;
    var handle := FrameHandler(parse);
    if texts == [] {
      ConsumeOne(last, w, handle);
      LineMeans(last, parse);
    } else {
      SendableRest(texts, parse);
      var rest := Encode(texts[1..], last) + w;
      assert Encode(texts, last) + w == Frame(texts[0]) + rest;
      ConsumeOne(texts[0], rest, handle);
      LineMeans(texts[0], parse);
      ConsumeAll(texts[1..], last, w, parse);
    }
  }

  lemma FrontOf(frame: Bytes, u: Bytes, v: Bytes, others: Bytes)
    requires u + v == frame + others && |u| >= |frame|
    ensures u == frame + u[|frame|..] && u[|frame|..] + v == others
  {
    assert (u + v)[..|frame|] == frame && (u + v)[|frame|..] == others;
  }

  /** The frame that comes first, and what follows it. */
  lemma FirstFrame(texts: seq<Bytes>, last: Bytes, tail: Bytes) returns (first: Bytes, others: Bytes)
    ensures Encode(texts, last) + tail == Frame(first) + others
    ensures tail == [] ==> Encode(texts, last) == Frame(first) + others
    ensures if texts == [] then first == last && others == tail
            else first == texts[0] && others == Encode(texts[1..], last) + tail
    ensures texts != [] && tail == [] ==> others == Encode(texts[1..], last)
  {
    hide Frame;
    if texts == [] {
      first, others := last, tail;
      assert Frame(last) + [] == Frame(last);
    } else {
      first, others := texts[0], Encode(texts[1..], last) + tail;
      Regrouped(Frame(first), Encode(texts[1..], last), tail);
    }
  }

  lemma Regrouped(a: Bytes, b: Bytes, c: Bytes)
    ensures a + b + c == a + (b + c) && b + [] == b
  {
  }

  /** After `u`, which does not complete the stream, `n` texts are delivered and the others are still to come. */
  ghost predicate Partly(u: Bytes, v: Bytes, texts: seq<Bytes>, last: Bytes, parse: Parser, n: nat) {
    && n <= |texts|
    && var k := Consume(u, FrameHandler(parse));
       && k.events + Messages(texts[n..], parse) == Messages(texts, parse) && k.end.None? && k.used <= |u|
       && u[k.used..] + v == Encode(texts[n..], last) && FirstBreak(u[k.used..]) == |u[k.used..]|
  }

  lemma NothingYet(u: Bytes, v: Bytes, texts: seq<Bytes>, last: Bytes, parse: Parser, first: Bytes, others: Bytes)
    requires Clean(first) && u + v == Encode(texts, last) == Frame(first) + others && |u| < |Frame(first)|
    ensures Partly(u, v, texts, last, parse, 0)
  {
    FrameBreak(first, others);
    ShortFront(u, v);
    ConsumeNone(u, FrameHandler(parse));
    assert u[0..] == u && texts[0..] == texts;
  }

  lemma OneMore(u: Bytes, v: Bytes, texts: seq<Bytes>, last: Bytes, parse: Parser, u': Bytes, m: nat)
    requires Sendable(texts, parse) && texts != [] && u == Frame(texts[0]) + u'
    requires Partly(u', v, texts[1..], last, parse, m)
    ensures Partly(u, v, texts, last, parse, m + 1)
  {
    hide Consume;
    hide FirstBreak;
    hide Encode;
    var handle := FrameHandler(parse);
    SendableRest(texts, parse);
    ConsumeOne(texts[0], u', handle);
    LineMeans(texts[0], parse);
    hide Frame;
    hide Handle;
    var k := Consume(u', handle);
    assert texts[1..][m..] == texts[m + 1..] && u[|Frame(texts[0])| + k.used..] == u'[k.used..];
    var sent := [Message(parse(texts[0]).payload)];
    assert sent + k.events + Messages(texts[m + 1..], parse) == sent + (k.events + Messages(texts[m + 1..], parse));
  }

  lemma {:induction false} ConsumeSome(u: Bytes, v: Bytes, texts: seq<Bytes>, last: Bytes, parse: Parser) returns (n: nat)
    requires Sendable(texts, parse) && Ends(last, parse) && u + v == Encode(texts, last) && v != []
    ensures Partly(u, v, texts, last, parse, n)
    decreases |texts|
  {
    hide Partly;
    hide Frame;
    var first, others := FirstFrame(texts, last, []);
    if |u| < |Frame(first)| {
      NothingYet(u, v, texts, last, parse, first, others);
      n := 0;
    } else if texts == [] {
      assert false;
    } else {
      FrontOf(Frame(first), u, v, others);
      SendableRest(texts, parse);
      var u' := u[|Frame(first)|..];
      var m := ConsumeSome(u', v, texts[1..], last, parse);
      OneMore(u, v, texts, last, parse, u', m);
      n := m + 1;
    }
  }

  // ---------------------------------------------------------------- in chunks

  /** Every chunk fits beside any frame that is not complete yet, and the stream is within its limit. */
  ghost predicate Fits(total: nat, chunks: seq<Bytes>, texts: seq<Bytes>, last: Bytes, limit: nat) {
    && total + |Flat(chunks)| <= limit
    && (forall i :: 0 <= i < |chunks| ==> |Frame(last)| + |chunks[i]| <= MAX_BUFFER)
    && (forall i, j :: 0 <= i < |chunks| && 0 <= j < |texts| ==> |Frame(texts[j])| + |chunks[i]| <= MAX_BUFFER)
  }

  lemma BufferIsShort(buffer: Bytes, v: Bytes, first: Bytes, others: Bytes)
    requires Clean(first) && buffer + v == Frame(first) + others && FirstBreak(buffer) == |buffer|
    ensures |buffer| < |Frame(first)|
  {
    FrameBreak(first, others);
    if |buffer| >= |Frame(first)| {
      LongFront(buffer, v);
    }
  }

  lemma FitsFirst(buffer: Bytes, total: nat, chunks: seq<Bytes>, tail: Bytes, texts: seq<Bytes>, last: Bytes, limit: nat)
    requires Fits(total, chunks, texts, last, limit) && chunks != [] && FirstBreak(buffer) == |buffer|
    requires Clean(last) && forall i :: 0 <= i < |texts| ==> Clean(texts[i])
    requires buffer + Flat(chunks) == Encode(texts, last) + tail
    ensures total + |chunks[0]| <= limit && |buffer| + |chunks[0]| <= MAX_BUFFER
  {
    hide FirstBreak;
    hide Frame;
    hide Encode;
    var first, others := FirstFrame(texts, last, tail);
    BufferIsShort(buffer, Flat(chunks), first, others);
    assert |chunks[0]| <= |Flat(chunks)|;
  }

  lemma FitsRest(total: nat, chunks: seq<Bytes>, texts: seq<Bytes>, n: nat, last: Bytes, limit: nat)
    requires Fits(total, chunks, texts, last, limit) && chunks != [] && n <= |texts|
    ensures Fits(total + |chunks[0]|, chunks[1..], texts[n..], last, limit)
  {
  }

  /** The decoder has delivered all but `texts`, and the rest of the stream is in its buffer or still to come. */
  ghost predicate Reading(buffer: Bytes, total: nat, chunks: seq<Bytes>, texts: seq<Bytes>, last: Bytes, tail: Bytes,
                          limit: nat, parse: Parser) {
    && Sendable(texts, parse) && Ends(last, parse) && Fits(total, chunks, texts, last, limit)
    && buffer + Flat(chunks) == Encode(texts, last) + tail && FirstBreak(buffer) == |buffer|
  }

  function Expected(texts: seq<Bytes>, last: Bytes, parse: Parser): Result {
    Result(Messages(texts, parse) + Closing(last, parse).events, Closing(last, parse).end)
  }

  lemma NeverDry(buffer: Bytes, texts: seq<Bytes>, last: Bytes, tail: Bytes)
    requires Clean(last) && forall i :: 0 <= i < |texts| ==> Clean(texts[i])
    requires buffer == Encode(texts, last) + tail
    ensures FirstBreak(buffer) < |buffer|
  {
    hide Encode;
    hide FirstBreak;
    var first, others := FirstFrame(texts, last, tail);
    FrameBreak(first, others);
  }

  /** The chunk completes the stream. */
  lemma LastChunk(u: Bytes, rest: Bytes, texts: seq<Bytes>, last: Bytes, tail: Bytes, parse: Parser)
    requires Sendable(texts, parse) && Ends(last, parse)
    requires u + rest == Encode(texts, last) + tail && |u| >= |Encode(texts, last)|
    ensures var k := Consume(Crush(u), FrameHandler(parse));
            k.end.Some? && Result(k.events, k.end.value) == Expected(texts, last, parse)
  {
    hide Consume;
    hide Crush;
    var e := Encode(texts, last);
    FrontOf(e, u, rest, tail);
    EncodedIsPlain(texts, last);
    CrushConcat(e, u[|e|..]);
    CrushFixed(e);
    ConsumeAll(texts, last, Crush(u[|e|..]), parse);
  }

  /** The chunk does not complete it. */
  lemma NextChunk(u: Bytes, rest: Bytes, texts: seq<Bytes>, last: Bytes, tail: Bytes, parse: Parser) returns (n: nat)
    requires Sendable(texts, parse) && Ends(last, parse)
    requires u + rest == Encode(texts, last) + tail && |u| < |Encode(texts, last)|
    ensures Crush(u) == u && n <= |texts|
    ensures var k := Consume(u, FrameHandler(parse));
            && k.end.None? && k.events + Messages(texts[n..], parse) == Messages(texts, parse)
            && u[k.used..] + rest == Encode(texts[n..], last) + tail && FirstBreak(u[k.used..]) == |u[k.used..]|
  {
    hide Consume;
    hide Crush;
    hide FirstBreak;
    hide Encode;
    var e := Encode(texts, last);
    var v := e[|u|..];
    assert u == (u + rest)[..|u|] == (e + tail)[..|u|] == e[..|u|];
    assert e == u + v;
    assert rest == (u + rest)[|u|..] == (e + tail)[|u|..] == v + tail;
    EncodedIsPlain(texts, last);
    PrefixIsPlain(u, v);
    n := ConsumeSome(u, v, texts, last, parse);
    var k := Consume(u, FrameHandler(parse));
    Regrouped(u[k.used..], v, tail);
  }

  lemma SendableLater(texts: seq<Bytes>, parse: Parser, n: nat)
    requires Sendable(texts, parse) && n <= |texts|
    ensures Sendable(texts[n..], parse)
  {
  }

  lemma {:induction false} Decodes(buffer: Bytes, total: nat, chunks: seq<Bytes>, texts: seq<Bytes>, last: Bytes, tail: Bytes,
                                   limit: nat, parse: Parser)
    requires Reading(buffer, total, chunks, texts, last, tail, limit, parse)
    ensures Incremental(buffer, total, chunks, limit, FrameHandler(parse)) == Expected(texts, last, parse)
    decreases |chunks|
  {
    hide Consume;
    hide Crush;
    hide Incremental;
    hide FirstBreak;
    hide Encode;
    hide Frame;
    var handle := FrameHandler(parse);
    if chunks == [] {
      assert buffer + [] == buffer;
      NeverDry(buffer, texts, last, tail);
    } else {
      var u, rest := buffer + chunks[0], Flat(chunks[1..]);
      Regrouped(buffer, chunks[0], rest);
      FitsFirst(buffer, total, chunks, tail, texts, last, limit);
      IncrementalStep(buffer, total, chunks, limit, handle);
      if |u| >= |Encode(texts, last)| {
        LastChunk(u, rest, texts, last, tail, parse);
      } else {
        var n := NextChunk(u, rest, texts, last, tail, parse);
        var k := Consume(u, handle);
        FitsRest(total, chunks, texts, n, last, limit);
        SendableLater(texts, parse, n);
        Decodes(u[k.used..], total + |chunks[0]|, chunks[1..], texts[n..], last, tail, limit, parse);
        Reassociate(k.events, Messages(texts[n..], parse), Closing(last, parse).events);
      }
    }
  }

  lemma Reassociate(a: seq<Event>, b: seq<Event>, c: seq<Event>)
    ensures a + b + c == a + (b + c)
  {
  }

  // ---------------------------------------------------------------- theorems

  /**
   However the stream is cut into chunks that fit: every payload is delivered once and in order, then the closing
   event, and whatever follows `[DONE]` is not looked at.
   */
  lemma RoundTrip(chunks: seq<Bytes>, texts: seq<Bytes>, tail: Bytes, limit: nat, parse: Parser)
    requires Sendable(texts, parse) && Flat(chunks) == Encode(texts, DONE) + tail && Fits(0, chunks, texts, DONE, limit)
    ensures var r := Incremental([], 0, chunks, limit, FrameHandler(parse));
            && r.end == Finished && |r.events| == |texts| + 1 && r.events[|texts|] == LastEvent
            && forall i :: 0 <= i < |texts| ==> r.events[i] == Message(parse(texts[i]).payload)
  {
    assert [] + Flat(chunks) == Flat(chunks);
    Decodes([], 0, chunks, texts, DONE, tail, limit, parse);
    MessagesAre(texts, parse);
  }

  /** A text that the parser refuses ends the stream with its code, after everything before it was delivered. */
  lemma BadTextEnds(chunks: seq<Bytes>, texts: seq<Bytes>, bad: Bytes, tail: Bytes, limit: nat, parse: Parser)
    requires Sendable(texts, parse) && Clean(bad) && bad != DONE && parse(bad).Bad?
    requires Flat(chunks) == Encode(texts, bad) + tail && Fits(0, chunks, texts, bad, limit)
    ensures var r := Incremental([], 0, chunks, limit, FrameHandler(parse));
            && r.end == Rejected(parse(bad).code) && |r.events| == |texts|
            && forall i :: 0 <= i < |texts| ==> r.events[i] == Message(parse(texts[i]).payload)
  {
    assert [] + Flat(chunks) == Flat(chunks);
    Decodes([], 0, chunks, texts, bad, tail, limit, parse);
    MessagesAre(texts, parse);
    assert Messages(texts, parse) + [] == Messages(texts, parse);
  }

  lemma {:induction false} MessagesAre(texts: seq<Bytes>, parse: Parser)
    requires Sendable(texts, parse)
    ensures var m := Messages(texts, parse);
            |m| == |texts| && forall i :: 0 <= i < |texts| ==> m[i] == Message(parse(texts[i]).payload)
    decreases |texts|
  {
    if texts != [] {
      SendableRest(texts, parse);
      MessagesAre(texts[1..], parse);
    }
  }
}
