/**
 The paged scan over the wallet's sessions.  The node lists them newest first; one page is read per cycle at
 a stored offset, which goes back to 0 after a short page.  New sessions appear at the front at any time.
 */
module WalletScan {
  type SessionId = nat

  const PAGE := 100

  /** What the node returns for an offset. */
  function Page(list: seq<SessionId>, offset: nat): seq<SessionId> {
    if offset >= |list| then []
    else if offset + PAGE <= |list| then list[offset..offset + PAGE]
    else list[offset..]
  }

  function NextOffset(offset: nat, batch: seq<SessionId>): nat {
    if |batch| == PAGE then offset + PAGE else 0
  }

  /**
   A pass that started at offset 0: the list now, the stored offset, what was examined since the start, and
   whether the offset has returned to 0.
   */
  datatype Scan = Scan(list: seq<SessionId>, offset: nat, examined: set<SessionId>, returned: bool)

  datatype Event =
    | Arrivals(newest: seq<SessionId>)
    | Cycle
    | FailedRead   // the node did not answer, or the process restarted: the stored offset stays

  function Elements(s: seq<SessionId>): set<SessionId> {
    set i | 0 <= i < |s| :: s[i]
  }

  function Next(s: Scan, e: Event): Scan {
    match e
    case Arrivals(newest) => s.(list := newest + s.list)
    case Cycle =>
      var batch := Page(s.list, s.offset);
      s.(offset := NextOffset(s.offset, batch), examined := s.examined + Elements(batch),
         returned := s.returned || |batch| < PAGE)
    case FailedRead => s
  }

  function Run(s: Scan, events: seq<Event>): Scan
    decreases |events|
  {
    if events == [] then s else Run(Next(s, events[0]), events[1..])
  }

  // ---------------------------------------------------------------- nothing is missed

  /** A session that the pages still to be read will contain. */
  ghost predicate Ahead(s: Scan, x: SessionId) {
    exists i :: s.offset <= i < |s.list| && s.list[i] == x
  }

  ghost predicate Progress(start: set<SessionId>, s: Scan) {
    forall x :: x in start ==> x in s.examined || (!s.returned && Ahead(s, x))
  }

  lemma PageCovers(list: seq<SessionId>, offset: nat, i: nat)
    requires offset <= i < |list| && i < offset + PAGE
    ensures list[i] in Elements(Page(list, offset))
  {
    var page := Page(list, offset);
    assert page[i - offset] == list[i];
  }

  lemma StepKeepsProgress(start: set<SessionId>, s: Scan, e: Event)
    requires Progress(start, s)
    ensures Progress(start, Next(s, e))
  {
    var t := Next(s, e);
    forall x | x in start && x !in t.examined ensures !t.returned && Ahead(t, x) {
      assert Ahead(s, x);
      var i :| s.offset <= i < |s.list| && s.list[i] == x;
      match e {
        case Arrivals(newest) => assert t.list[|newest| + i] == x;
        case Cycle =>
          if i < s.offset + PAGE {
            PageCovers(s.list, s.offset, i);
          }
        case FailedRead =>
      }
    }
  }

  lemma {:induction false} RunKeepsProgress(start: set<SessionId>, s: Scan, events: seq<Event>)
    requires Progress(start, s)
    ensures Progress(start, Run(s, events))
    decreases |events|
  {
    if events != [] {
      StepKeepsProgress(start, s, events[0]);
      RunKeepsProgress(start, Next(s, events[0]), events[1..]);
    }
  }

  /** Whatever arrives between pages, a pass examines all that was listed when it started. */
  lemma ScanMissesNothing(list: seq<SessionId>, events: seq<Event>)
    ensures var s := Run(Scan(list, 0, {}, false), events);
            s.returned ==> Elements(list) <= s.examined
  {
    RunKeepsProgress(Elements(list), Scan(list, 0, {}, false), events);
  }

  // ---------------------------------------------------------------- when a pass ends

  /** Cycles with what arrived before each. */
  function Cycles(s: Scan, rounds: seq<seq<SessionId>>): Scan
    decreases |rounds|
  {
    if rounds == [] then s else Cycles(Next(Next(s, Arrivals(rounds[0])), Cycle), rounds[1..])
  }

  lemma {:induction false} ReturnedStays(s: Scan, rounds: seq<seq<SessionId>>)
    requires s.returned
    ensures Cycles(s, rounds).returned
    decreases |rounds|
  {
    if rounds != [] {
      ReturnedStays(Next(Next(s, Arrivals(rounds[0])), Cycle), rounds[1..]);
    }
  }

  /** With fewer arrivals per cycle than a page, what is left shrinks by at least one per cycle. */
  lemma {:induction false} PassEnds(s: Scan, rounds: seq<seq<SessionId>>)
    requires s.offset <= |s.list| && |rounds| > |s.list| - s.offset
    requires forall i :: 0 <= i < |rounds| ==> |rounds[i]| < PAGE
    ensures Cycles(s, rounds).returned
    decreases |rounds|
  {
    var arrived := Next(s, Arrivals(rounds[0]));
    var next := Next(arrived, Cycle);
    if next.returned {
      ReturnedStays(next, rounds[1..]);
    } else {
      assert |next.list| - next.offset < |s.list| - s.offset;
      PassEnds(next, rounds[1..]);
    }
  }

  /** With a full page of arrivals before every cycle a pass never ends. */
  lemma {:induction false} FloodedPassNeverEnds(s: Scan, rounds: seq<seq<SessionId>>)
    requires s.offset <= |s.list| && !s.returned
    requires forall i :: 0 <= i < |rounds| ==> |rounds[i]| >= PAGE
    ensures !Cycles(s, rounds).returned
    decreases |rounds|
  {
    if rounds != [] {
      FloodedPassNeverEnds(Next(Next(s, Arrivals(rounds[0])), Cycle), rounds[1..]);
    }
  }

  // ---------------------------------------------------------------- the sweep

  class Sweeper {
    var offset: nat
    var examined: set<SessionId>

    constructor ()
      ensures offset == 0 && examined == {}
    {
      offset, examined := 0, {};
    }

    /** One cycle of `sweep_wallet` over the page the node returned; `complete` says that bindings may be decided. */
    method SweepWallet(ghost s: Scan, batch: seq<SessionId>) returns (complete: bool)
      requires s.offset == offset && s.examined == examined && batch == Page(s.list, offset)
      modifies this
      ensures offset == Next(s, Cycle).offset && examined == Next(s, Cycle).examined
      ensures complete <==> |batch| < PAGE
    {
      for i := 0 to |batch|
        invariant offset == old(offset) && examined == old(examined) + Elements(batch[..i])
      {
        assert batch[..i + 1] == batch[..i] + [batch[i]];
        AddElement(batch[..i], batch[i]);
        examined := examined + {batch[i]};
      }
      assert batch[..|batch|] == batch;
      offset := if |batch| == PAGE then offset + |batch| else 0;
      complete := |batch| < PAGE;
    }
  }

  lemma AddElement(s: seq<SessionId>, x: SessionId)
    ensures Elements(s + [x]) == Elements(s) + {x}
  {
    var all := s + [x];
    assert all[|s|] == x && forall i :: 0 <= i < |s| ==> all[i] == s[i];
  }
}
