/**
 Admission of completion requests for one API key: the sliding one-minute window, the concurrency limit with
 its cleanup, and the durable idempotency records.
 */
module Admission {
  import opened Options

  type Req = nat
  type IdemId = nat

  datatype Limits = Limits(perMinute: nat, concurrency: nat)

  const WINDOW := 60

  // ---------------------------------------------------------------- rate and concurrency

  /** A request between admission and the end of its cleanup; `Closing` once cleanup was entered. */
  datatype Phase = Running | Closing

  /**
   What the process keeps (`bucket`, `active`, `phases`), the monotonic clock, and history: all admission times,
   how many of them predate this process, and how many cleanups this process finished.
   */
  datatype Limiter = Limiter(bucket: seq<int>, active: nat, phases: map<Req, Phase>, clock: int,
                             admitted: seq<int>, earlier: nat, cleaned: nat)

  function Pruned(bucket: seq<int>, now: int): seq<int> {
    if bucket != [] && bucket[0] < now - WINDOW then Pruned(bucket[1..], now) else bucket
  }

  predicate Accepts(limits: Limits, g: Limiter, checkedAt: int) {
    |Pruned(g.bucket, checkedAt)| < limits.perMinute && g.active < limits.concurrency
  }

  function Arrive(limits: Limits, g: Limiter, req: Req, checkedAt: int, admittedAt: int): Limiter {
    var bucket := Pruned(g.bucket, checkedAt);
    if !Accepts(limits, g, checkedAt) then g.(bucket := bucket, clock := checkedAt)
    else g.(bucket := bucket + [admittedAt], active := g.active + 1, phases := g.phases[req := Running],
            clock := admittedAt, admitted := g.admitted + [admittedAt])
  }

  /** Entering cleanup: only the first entry goes on. */
  function EnterCleanup(g: Limiter, req: Req): Limiter {
    if req in g.phases && g.phases[req].Running? then g.(phases := g.phases[req := Closing]) else g
  }

  function LeaveCleanup(g: Limiter, req: Req): Limiter
    requires g.active > 0
  {
    g.(active := g.active - 1, phases := g.phases - {req}, cleaned := g.cleaned + 1)
  }

  /** A new process: nothing in memory, a clock of its own. */
  function Restart(g: Limiter, clock: int): Limiter {
    Limiter([], 0, map[], clock, g.admitted, |g.admitted|, 0)
  }

  datatype Step =
    | Request(req: Req, checkedAt: int, admittedAt: int)
    | Enter(req: Req)
    | Leave(req: Req)
    | Reboot(clock: int)

  predicate Enabled(g: Limiter, step: Step) {
    match step
    case Request(req, checkedAt, admittedAt) => req !in g.phases && g.clock <= checkedAt <= admittedAt
    case Enter(_) => true
    case Leave(req) => req in g.phases && g.phases[req].Closing? && g.active > 0
    case Reboot(_) => true
  }

  function Next(limits: Limits, g: Limiter, step: Step): Limiter
    requires Enabled(g, step)
  {
    match step
    case Request(req, checkedAt, admittedAt) => Arrive(limits, g, req, checkedAt, admittedAt)
    case Enter(req) => EnterCleanup(g, req)
    case Leave(req) => LeaveCleanup(g, req)
    case Reboot(clock) => Restart(g, clock)
  }

  ghost predicate Run(limits: Limits, g: Limiter, steps: seq<Step>, g': Limiter)
    decreases |steps|
  {
    if steps == [] then g == g' else Enabled(g, steps[0]) && Run(limits, Next(limits, g, steps[0]), steps[1..], g')
  }

  const FRESH := Limiter([], 0, map[], 0, [], 0, 0)

  /** Two admissions of this process a window apart or less leave room for no more than the limit between them. */
  ghost predicate Spaced(limits: Limits, admitted: seq<int>, earlier: nat) {
    forall i, j :: earlier <= i <= j < |admitted| && admitted[j] - admitted[i] <= WINDOW ==> j - i + 1 <= limits.perMinute
  }

  ghost predicate Sorted(admitted: seq<int>, earlier: nat) {
    forall i, j :: earlier <= i <= j < |admitted| ==> admitted[i] <= admitted[j]
  }

  /** The bucket is the recent end of the history; what it lost is out of the window. */
  ghost predicate Recent(bucket: seq<int>, admitted: seq<int>, earlier: nat, clock: int) {
    && earlier + |bucket| <= |admitted| && bucket == admitted[|admitted| - |bucket|..]
    && (forall i :: earlier <= i < |admitted| - |bucket| ==> admitted[i] < clock - WINDOW)
    && (forall i :: earlier <= i < |admitted| ==> admitted[i] <= clock)
  }

  ghost predicate LimiterInv(limits: Limits, g: Limiter) {
    && Recent(g.bucket, g.admitted, g.earlier, g.clock) && Sorted(g.admitted, g.earlier)
    && Spaced(limits, g.admitted, g.earlier)
    && g.active == |g.phases| && g.active <= limits.concurrency
    && |g.admitted| - g.earlier == g.cleaned + g.active
  }

  lemma {:induction false} PrunedIsRecent(bucket: seq<int>, admitted: seq<int>, earlier: nat, clock: int, now: int)
    requires Recent(bucket, admitted, earlier, clock) && clock <= now
    ensures Recent(Pruned(bucket, now), admitted, earlier, now)
    ensures Pruned(bucket, now) != [] ==> Pruned(bucket, now)[0] >= now - WINDOW
    decreases |bucket|
  {
    if bucket != [] && bucket[0] < now - WINDOW {
      PrunedIsRecent(bucket[1..], admitted, earlier, now, now);
    }
  }

  lemma AdmitSpaced(limits: Limits, bucket: seq<int>, admitted: seq<int>, earlier: nat, checkedAt: int, at: int)
    requires Recent(bucket, admitted, earlier, checkedAt) && Sorted(admitted, earlier) && Spaced(limits, admitted, earlier)
    requires checkedAt <= at && |bucket| < limits.perMinute
    ensures Recent(bucket + [at], admitted + [at], earlier, at) && Sorted(admitted + [at], earlier)
    ensures Spaced(limits, admitted + [at], earlier)
  {
    var all, k := admitted + [at], |admitted| - |bucket|;
    assert all[k..] == bucket + [at];
    forall i, j | earlier <= i <= j < |all| && all[j] - all[i] <= WINDOW ensures j - i + 1 <= limits.perMinute {
      if j == |admitted| {
        assert i >= k;
      } else {
        assert all[i] == admitted[i] && all[j] == admitted[j];
      }
    }
  }

  lemma StepKeepsLimiter(limits: Limits, g: Limiter, step: Step)
    requires LimiterInv(limits, g) && Enabled(g, step)
    ensures LimiterInv(limits, Next(limits, g, step))
  {
    match step {
      case Request(req, checkedAt, admittedAt) =>
        PrunedIsRecent(g.bucket, g.admitted, g.earlier, g.clock, checkedAt);
        if Accepts(limits, g, checkedAt) {
          AdmitSpaced(limits, Pruned(g.bucket, checkedAt), g.admitted, g.earlier, checkedAt, admittedAt);
          assert g.phases == g.phases[req := Running] - {req};
        }
      case Enter(req) =>
        if req in g.phases {
          assert g.phases[req := Closing].Keys == g.phases.Keys;
          assert |g.phases[req := Closing]| == |g.phases[req := Closing].Keys| == |g.phases.Keys| == |g.phases|;
        }
      case Leave(req) =>
        assert (g.phases - {req}).Keys == g.phases.Keys - {req};
        assert |g.phases - {req}| == |(g.phases - {req}).Keys| && |g.phases| == |g.phases.Keys|;
      case Reboot(_) =>
    }
  }

  lemma {:induction false} RunKeepsLimiter(limits: Limits, g: Limiter, steps: seq<Step>, g': Limiter)
    requires LimiterInv(limits, g) && Run(limits, g, steps, g')
    ensures LimiterInv(limits, g')
    decreases |steps|
  {
    if steps != [] {
      StepKeepsLimiter(limits, g, steps[0]);
      RunKeepsLimiter(limits, Next(limits, g, steps[0]), steps[1..], g');
    }
  }

  /** Which admissions of this process fall into the closed window that starts at `x`. */
  function InWindow(g: Limiter, x: int): set<nat> {
    set i: nat | g.earlier <= i < |g.admitted| && x <= g.admitted[i] <= x + WINDOW
  }

  lemma {:induction false} BoundedSet(s: set<nat>, lo: nat, hi: nat)
    requires lo <= hi && forall x :: x in s ==> lo <= x < hi
    ensures |s| <= hi - lo
    decreases hi - lo
  {
    if lo == hi {
      assert s == {};
    } else {
      BoundedSet(s - {hi - 1}, lo, hi - 1);
    }
  }

  lemma {:induction false} Extremes(s: set<nat>) returns (lo: nat, hi: nat)
    requires s != {}
    ensures lo in s && hi in s && forall x :: x in s ==> lo <= x <= hi
    decreases |s|
  {
    var x :| x in s;
    if s == {x} {
      lo, hi := x, x;
    } else {
      var l, h := Extremes(s - {x});
      assert forall y :: y in s ==> y == x || y in s - {x};
      lo, hi := if x < l then x else l, if x > h then x else h;
    }
  }

  /** In any closed one-minute window a process admits at most the configured number of requests of the key. */
  lemma WindowBounded(limits: Limits, steps: seq<Step>, g: Limiter, x: int)
    requires Run(limits, FRESH, steps, g)
    ensures |InWindow(g, x)| <= limits.perMinute
  {
    RunKeepsLimiter(limits, FRESH, steps, g);
    var s := InWindow(g, x);
    if s != {} {
      var lo, hi := Extremes(s);
      BoundedSet(s, lo, hi + 1);
    }
  }

  /** The bucket holds exactly the admissions of this process that are no older than the window. */
  lemma {:induction false} PrunedCounts(bucket: seq<int>, admitted: seq<int>, earlier: nat, clock: int, now: int)
    requires Recent(bucket, admitted, earlier, clock) && Sorted(admitted, earlier) && clock <= now
    ensures |Pruned(bucket, now)| == |set i | earlier <= i < |admitted| && admitted[i] >= now - WINDOW|
  {
    PrunedIsRecent(bucket, admitted, earlier, clock, now);
    var from := |admitted| - |Pruned(bucket, now)|;
    if from < |admitted| {
      assert admitted[from] == Pruned(bucket, now)[0];
    }
    LateOnes(admitted, from, |admitted|, now - WINDOW);
    assert (set i | earlier <= i < |admitted| && admitted[i] >= now - WINDOW)
        == (set i | from <= i < |admitted| && admitted[i] >= now - WINDOW);
  }

  lemma {:induction false} LateOnes(admitted: seq<int>, lo: nat, hi: nat, bound: int)
    requires lo <= hi <= |admitted| && forall i :: lo <= i < hi ==> admitted[i] >= bound
    ensures |set i | lo <= i < hi && admitted[i] >= bound| == hi - lo
    decreases hi - lo
  {
    var late := set i | lo <= i < hi && admitted[i] >= bound;
    if lo < hi {
      LateOnes(admitted, lo, hi - 1, bound);
      assert late == (set i | lo <= i < hi - 1 && admitted[i] >= bound) + {hi - 1};
    } else {
      assert late == {};
    }
  }

  /**
   In every reachable state a request is admitted if and only if fewer than the limit were admitted within the
   last window and fewer than the limit are in flight.
   */
  lemma AdmitsIff(limits: Limits, steps: seq<Step>, g: Limiter, checkedAt: int)
    requires Run(limits, FRESH, steps, g) && g.clock <= checkedAt
    ensures Accepts(limits, g, checkedAt) <==>
            && |set i | g.earlier <= i < |g.admitted| && g.admitted[i] >= checkedAt - WINDOW| < limits.perMinute
            && |g.phases| < limits.concurrency
  {
    RunKeepsLimiter(limits, FRESH, steps, g);
    PrunedCounts(g.bucket, g.admitted, g.earlier, g.clock, checkedAt);
  }

  /** The counter is the number of admitted requests not yet cleaned up, and within the concurrency limit. */
  lemma InFlightExact(limits: Limits, steps: seq<Step>, g: Limiter)
    requires Run(limits, FRESH, steps, g)
    ensures g.active == |g.admitted| - g.earlier - g.cleaned == |g.phases| && g.active <= limits.concurrency
  {
    RunKeepsLimiter(limits, FRESH, steps, g);
  }

  // ---------------------------------------------------------------- what a restart forgets

  /** Nothing in flight, and only admissions of this instant in the window. */
  ghost predicate Quiet(g: Limiter, now: int) {
    g.active == 0 && g.phases == map[] && g.clock == now && forall i :: 0 <= i < |g.bucket| ==> g.bucket[i] == now
  }

  function Same(k: nat, x: int): seq<int> {
    seq(k, _ => x)
  }

  lemma {:induction false} RunSteps(limits: Limits, g: Limiter, first: seq<Step>, m: Limiter, second: seq<Step>, g': Limiter)
    requires Run(limits, g, first, m) && Run(limits, m, second, g')
    ensures Run(limits, g, first + second, g')
    decreases |first|
  {
    if first == [] {
      assert first + second == second;
    } else {
      assert (first + second)[1..] == first[1..] + second;
      RunSteps(limits, Next(limits, g, first[0]), first[1..], m, second, g');
    }
  }

  /** One request is admitted and cleaned up at once. */
  lemma AdmitOne(limits: Limits, g: Limiter, now: int) returns (steps: seq<Step>, g': Limiter)
    requires Quiet(g, now) && |g.bucket| < limits.perMinute && limits.concurrency > 0
    ensures Run(limits, g, steps, g') && Quiet(g', now)
    ensures |g'.bucket| == |g.bucket| + 1 && g'.admitted == g.admitted + [now]
  {
    steps := [Request(0, now, now), Enter(0), Leave(0)];
    assert Pruned(g.bucket, now) == g.bucket;
    var g1 := Next(limits, g, steps[0]);
    var g2 := Next(limits, g1, steps[1]);
    g' := Next(limits, g2, steps[2]);
    assert g'.phases == map[];
    assert Run(limits, g', steps[2..][1..], g');
    assert Run(limits, g2, steps[1..][1..], g');
  }

  /** As many as the window has room for can be admitted at one instant. */
  lemma {:induction false} AdmitMany(limits: Limits, g: Limiter, now: int, k: nat) returns (steps: seq<Step>, g': Limiter)
    requires Quiet(g, now) && |g.bucket| + k <= limits.perMinute && limits.concurrency > 0
    ensures Run(limits, g, steps, g') && Quiet(g', now) && g'.admitted == g.admitted + Same(k, now)
    decreases k
  {
    if k == 0 {
      steps, g' := [], g;
    } else {
      var first, m := AdmitOne(limits, g, now);
      var rest;
      rest, g' := AdmitMany(limits, m, now, k - 1);
      RunSteps(limits, g, first, m, rest, g');
      steps := first + rest;
      assert Same(k, now) == [now] + Same(k - 1, now);
    }
  }

  /**
   The window is kept in memory only: whatever the limits, and at whatever instant, a full window, a restart and
   a second full window fit into that instant.
   */
  lemma RestartForgetsWindow(limits: Limits, now: int) returns (steps: seq<Step>, g: Limiter)
    requires limits.perMinute > 0 && limits.concurrency > 0
    ensures Run(limits, FRESH, steps, g) && g.admitted == Same(2 * limits.perMinute, now)
  {
    var start, middle := Reboot(now), Restart(FRESH, now);
    assert [start][1..] == [] && Run(limits, FRESH, [start], middle);
    var first, g1 := AdmitMany(limits, middle, now, limits.perMinute);
    var again := Restart(g1, now);
    assert [start][1..] == [] && Run(limits, g1, [start], again);
    var second;
    second, g := AdmitMany(limits, again, now, limits.perMinute);
    RunSteps(limits, g1, [start], again, second, g);
    RunSteps(limits, middle, first, g1, [start] + second, g);
    RunSteps(limits, FRESH, [start], middle, first + ([start] + second), g);
    steps := [start] + (first + ([start] + second));
  }

  // ---------------------------------------------------------------- idempotency records

  const RETENTION := 30 * 86400

  datatype RecordState = Started | Completed | Interrupted
  datatype Record = Record(state: RecordState, createdAt: int)

  /** A request that passed: its record and when. */
  datatype Pass = Pass(idem: IdemId, at: int)

  /** The durable records, the wall clock, the requests in flight with a record, and the history of passes. */
  datatype Ledger = Ledger(records: map<IdemId, Record>, clock: int, inFlight: set<IdemId>, passes: seq<Pass>)

  datatype LedgerStep =
    | Claim(idem: IdemId, at: int)
    | Conclude(idem: IdemId, at: int)
    | Prune(at: int)
    | RestartAt(at: int)

  predicate LedgerCan(l: Ledger, step: LedgerStep) {
    l.clock <= step.at && (step.Conclude? ==> step.idem in l.inFlight)
  }

  predicate Expired(r: Record, now: int) {
    !r.state.Started? && r.createdAt < now - RETENTION
  }

  function LedgerNext(l: Ledger, step: LedgerStep): Ledger {
    match step
    case Claim(idem, at) =>
      if idem in l.records then l.(clock := at)
      else Ledger(l.records[idem := Record(Started, at)], at, l.inFlight + {idem}, l.passes + [Pass(idem, at)])
    case Conclude(idem, at) =>
      l.(records := l.records[idem := Record(Completed, at)], clock := at, inFlight := l.inFlight - {idem})
    case Prune(at) => l.(records := map i | i in l.records && !Expired(l.records[i], at) :: l.records[i], clock := at)
    case RestartAt(at) =>
      l.(records := map i | i in l.records ::
           if l.records[i].state.Started? then l.records[i].(state := Interrupted) else l.records[i],
         clock := at, inFlight := {})
  }

  ghost predicate LedgerRun(l: Ledger, steps: seq<LedgerStep>, l': Ledger)
    decreases |steps|
  {
    if steps == [] then l == l' else LedgerCan(l, steps[0]) && LedgerRun(LedgerNext(l, steps[0]), steps[1..], l')
  }

  /** A pass is still on record, or its record expired more than the retention after it. */
  predicate PassKept(records: map<IdemId, Record>, clock: int, p: Pass) {
    && p.at <= clock
    && (if p.idem in records then records[p.idem].createdAt >= p.at else p.at < clock - RETENTION)
  }

  ghost predicate Apart(passes: seq<Pass>) {
    forall i, j :: 0 <= i < j < |passes| && passes[i].idem == passes[j].idem ==> passes[j].at - passes[i].at > RETENTION
  }

  ghost predicate LedgerInv(l: Ledger) {
    && (forall k :: 0 <= k < |l.passes| ==> PassKept(l.records, l.clock, l.passes[k]))
    && Apart(l.passes)
    && (forall i :: i in l.records ==> l.records[i].createdAt <= l.clock)
  }

  lemma ClaimKeeps(l: Ledger, idem: IdemId, at: int)
    requires LedgerInv(l) && l.clock <= at
    ensures LedgerInv(LedgerNext(l, Claim(idem, at)))
  {
    var l' := LedgerNext(l, Claim(idem, at));
    forall k | 0 <= k < |l.passes| ensures PassKept(l'.records, at, l.passes[k]) {
      assert PassKept(l.records, l.clock, l.passes[k]);
    }
    if idem !in l.records {
      forall i | 0 <= i < |l.passes| && l.passes[i].idem == idem ensures at - l.passes[i].at > RETENTION {
        assert PassKept(l.records, l.clock, l.passes[i]);
      }
    }
  }

  /** Steps that add no pass. */
  lemma NoPassKeeps(l: Ledger, l': Ledger)
    requires LedgerInv(l) && l'.passes == l.passes && l'.clock >= l.clock
    requires forall p: Pass :: PassKept(l.records, l.clock, p) ==> PassKept(l'.records, l'.clock, p)
    requires forall i :: i in l'.records ==> l'.records[i].createdAt <= l'.clock
    ensures LedgerInv(l')
  {
  }

  lemma LedgerStepKeeps(l: Ledger, step: LedgerStep)
    requires LedgerInv(l) && LedgerCan(l, step)
    ensures LedgerInv(LedgerNext(l, step))
  {
    hide Apart;
    match step
    case Claim(idem, at) => ClaimKeeps(l, idem, at);
    case Conclude(_, _) => NoPassKeeps(l, LedgerNext(l, step));
    case Prune(_) => NoPassKeeps(l, LedgerNext(l, step));
    case RestartAt(_) => NoPassKeeps(l, LedgerNext(l, step));
  }

  lemma {:induction false} LedgerRunKeeps(l: Ledger, steps: seq<LedgerStep>, l': Ledger)
    requires LedgerInv(l) && LedgerRun(l, steps, l')
    ensures LedgerInv(l')
    decreases |steps|
  {
    if steps != [] {
      LedgerStepKeeps(l, steps[0]);
      LedgerRunKeeps(LedgerNext(l, steps[0]), steps[1..], l');
    }
  }

  /** A key passes at most once within the retention, restarts and pruning included. */
  lemma PassesAtMostOnce(steps: seq<LedgerStep>, l: Ledger, i: nat, j: nat)
    requires LedgerRun(Ledger(map[], 0, {}, []), steps, l)
    requires i < j < |l.passes| && l.passes[i].idem == l.passes[j].idem
    ensures l.passes[j].at - l.passes[i].at > RETENTION
  {
    LedgerRunKeeps(Ledger(map[], 0, {}, []), steps, l);
  }

  // ---------------------------------------------------------------- the process

  class Gate {
    const limits: Limits
    var bucket: seq<int>
    var active: nat
    var records: map<IdemId, Record>

    constructor (limits: Limits)
      ensures this.limits == limits && bucket == [] && active == 0 && records == map[]
    {
      this.limits := limits;
      bucket, active, records := [], 0, map[];
    }

    /**
     The window loop and the two limits; an admitted request is counted at once.  The loop reads the clock before
     every removal: `readings` are the successive answers, and the last one decides.
     */
    method Admit(ghost g: Limiter, req: Req, readings: seq<int>, admittedAt: int) returns (ok: bool, ghost checkedAt: int)
      requires g.bucket == bucket && g.active == active && req !in g.phases
      requires |readings| > |bucket| && g.clock <= readings[0]
      requires forall i, j :: 0 <= i <= j < |readings| ==> readings[i] <= readings[j]
      requires forall i :: 0 <= i < |readings| ==> readings[i] <= admittedAt
      modifies `bucket, `active
      ensures checkedAt in readings && Enabled(g, Request(req, checkedAt, admittedAt))
      ensures var g' := Next(limits, g, Request(req, checkedAt, admittedAt));
              bucket == g'.bucket && active == g'.active && (ok <==> Accepts(limits, g, checkedAt))
    {
      var i := 0;
      while bucket != [] && bucket[0] < readings[i] - WINDOW
        invariant 0 <= i && i + |bucket| < |readings| && active == old(active)
        invariant forall t :: t >= readings[i] ==> Pruned(bucket, t) == Pruned(g.bucket, t)
        decreases |bucket|
      {
        bucket := bucket[1..];
        i := i + 1;
      }
      checkedAt := readings[i];
      assert Pruned(bucket, checkedAt) == bucket;
      if |bucket| >= limits.perMinute || active >= limits.concurrency {
        ok := false;
        return;
      }
      bucket := bucket + [admittedAt];
      active := active + 1;
      ok := true;
    }

    /** The idempotency part of a request: pass, or answer that it was already attempted. */
    method ClaimKey(ghost l: Ledger, idem: IdemId, at: int) returns (passes: bool)
      requires l.records == records
      modifies `records
      ensures records == LedgerNext(l, Claim(idem, at)).records && (passes <==> idem !in old(records))
    {
      if idem in records {
        return false;
      }
      records := records[idem := Record(Started, at)];
      return true;
    }

    /** The end of `cleanup`. */
    method Release(ghost g: Limiter, ghost l: Ledger, req: Req, idem: Option<IdemId>, at: int)
      requires g.active == active && Enabled(g, Leave(req)) && l.records == records
      modifies `active, `records
      ensures active == Next(limits, g, Leave(req)).active
      ensures records == if idem.Some? then LedgerNext(l, Conclude(idem.value, at)).records else old(records)
    {
      active := active - 1;
      if idem.Some? {
        records := records[idem.value := Record(Completed, at)];
      }
    }
  }
}
