/**
 Limits on what may begin: during maintenance, within one opening, at the door of `acquire`, and in a scan.
 */
module Admittance {
  import opened Options
  import opened SessionRows
  import opened Protocol
  import opened WalletSafety
  import Leases

  // ---------------------------------------------------------------- maintenance

  /** Tasks that were already past their maintenance check and may still send one call, never an open. */
  function MaySend(lock: Holder): nat {
    match lock
    case CloseChecking(_) => 1
    case CloseReading(_) => 1
    case TreasuryChecking => 1
    case TreasuryScanning(_) => 1
    case _ => 0
  }

  ghost predicate SendsLess(s: State, t: State) {
    && (t.calls == s.calls || exists call :: t.calls == s.calls + [call] && !call.CallOpen?)
    && |t.calls| + MaySend(t.lock) <= |s.calls| + MaySend(s.lock)
  }

  lemma OpenSendsLess(cfg: Config, s: State, step: OpenStep)
    requires s.mem.maintenance && CanOpen(s, step)
    ensures SendsLess(s, ApplyOpen(cfg, s, step))
  {
  }

  lemma CloseSendsLess(cfg: Config, s: State, step: CloseStep)
    requires s.mem.maintenance && CanClose(s, step)
    ensures SendsLess(s, ApplyClose(cfg, s, step))
  {
  }

  lemma TreasurySendsLess(s: State, step: TreasuryStep)
    requires s.mem.maintenance && CanWithdraw(s, step)
    ensures SendsLess(s, ApplyTreasury(s, step))
  {
  }

  lemma StepSendsLess(cfg: Config, s: State, step: Step)
    requires s.mem.maintenance && Enabled(s, step)
    ensures SendsLess(s, Apply(cfg, s, step))
  {
    match step
    case Opens(o) => OpenSendsLess(cfg, s, o);
    case Closes(c) => CloseSendsLess(cfg, s, c);
    case Withdraws(w) => TreasurySendsLess(s, w);
    case Borrows(b) => BorrowCallsFrame(cfg, s, b); Leases.BorrowFrame(cfg, s, b);
    case _ =>
  }

  ghost predicate NoOpensSince(s: State, t: State) {
    s.calls <= t.calls && forall i :: |s.calls| <= i < |t.calls| ==> !t.calls[i].CallOpen?
  }

  ghost predicate InMaintenance(cfg: Config, s: State, steps: seq<Step>)
    decreases |steps|
  {
    s.mem.maintenance &&
    (steps != [] && Enabled(s, steps[0]) ==> InMaintenance(cfg, Apply(cfg, s, steps[0]), steps[1..]))
  }

  /**
   While maintenance lasts, no open is sent, and at most one call in all: by the task that held the wallet lock
   beyond its maintenance check when it began.
   */
  lemma {:induction false} MaintenanceStops(cfg: Config, s: State, steps: seq<Step>, t: State)
    requires Run(cfg, s, steps, t) && InMaintenance(cfg, s, steps)
    ensures NoOpensSince(s, t) && |t.calls| <= |s.calls| + MaySend(s.lock)
    ensures |t.calls| + MaySend(t.lock) <= |s.calls| + MaySend(s.lock)
    decreases |steps|
  {
    if steps != [] {
      StepSendsLess(cfg, s, steps[0]);
      MaintenanceStops(cfg, Apply(cfg, s, steps[0]), steps[1..], t);
    }
  }

  // ---------------------------------------------------------------- attempts of one opening

  predicate InOpen(lock: Holder) {
    lock.OpenChecking? || lock.OpenQuoting? || lock.OpenSubmitted? || lock.OpenConfirming?
  }

  /** Submissions that the opening may still make before it gives the lock up. */
  function TriesLeft(lock: Holder): int {
    match lock
    case OpenChecking(_, attempt, _) => 3 - attempt
    case OpenQuoting(_, attempt, _, _) => 3 - attempt
    case OpenSubmitted(_, attempt, _) => 2 - attempt
    case OpenConfirming(_, attempt, _) => 2 - attempt
    case _ => 0
  }

  /** An opening is at its first, second or third attempt. */
  predicate Counting(lock: Holder) {
    match lock
    case OpenChecking(_, attempt, _) => attempt <= 2
    case OpenQuoting(_, attempt, _, _) => attempt <= 2
    case OpenSubmitted(_, attempt, _) => attempt <= 2
    case OpenConfirming(_, attempt, _) => attempt <= 2
    case _ => true
  }

  ghost predicate TriesShrink(s: State, t: State) {
    Counting(t.lock) && |t.calls| + TriesLeft(t.lock) <= |s.calls| + TriesLeft(s.lock)
  }

  lemma OpenTriesShrink(cfg: Config, s: State, step: OpenStep)
    requires CanOpen(s, step) && InOpen(s.lock) && Counting(s.lock)
    ensures TriesShrink(s, ApplyOpen(cfg, s, step))
  {
  }

  lemma StepTriesShrink(cfg: Config, s: State, step: Step)
    requires Enabled(s, step) && InOpen(s.lock) && Counting(s.lock)
    ensures TriesShrink(s, Apply(cfg, s, step))
  {
    match step
    case Opens(o) => OpenTriesShrink(cfg, s, o);
    case Borrows(b) => BorrowCallsFrame(cfg, s, b); Leases.BorrowFrame(cfg, s, b);
    case _ =>
  }

  /** The lock stays with the opening. */
  ghost predicate LockStays(cfg: Config, s: State, steps: seq<Step>)
    decreases |steps|
  {
    steps != [] && Enabled(s, steps[0]) ==>
      InOpen(Apply(cfg, s, steps[0]).lock) && LockStays(cfg, Apply(cfg, s, steps[0]), steps[1..])
  }

  lemma {:induction false} TriesShrinkAlong(cfg: Config, s: State, steps: seq<Step>, t: State)
    requires Run(cfg, s, steps, t) && InOpen(s.lock) && Counting(s.lock) && LockStays(cfg, s, steps)
    ensures TriesShrink(s, t)
    decreases |steps|
  {
    if steps != [] {
      StepTriesShrink(cfg, s, steps[0]);
      TriesShrinkAlong(cfg, Apply(cfg, s, steps[0]), steps[1..], t);
    }
  }

  /** One opening, from taking the lock until it gives it up, asks the node for a session at most three times. */
  lemma ThreeTriesAtMost(cfg: Config, s: State, model: Id, steps: seq<Step>, t: State)
    requires s.lock.Free? && Run(cfg, OpenBegin(s, model), steps, t) && InOpen(OpenBegin(s, model).lock)
    requires LockStays(cfg, OpenBegin(s, model), steps)
    ensures |t.calls| <= |s.calls| + 3
  {
    TriesShrinkAlong(cfg, OpenBegin(s, model), steps, t);
  }

  /**
   After a failed submission or confirmation the opening tries again if and only if the provider declined, it was
   not the third attempt, and the policy still admits the model.
   */
  lemma RetriesIff(cfg: Config, s: State, failure: Failure, now: int)
    requires s.lock.OpenSubmitted? || s.lock.OpenConfirming?
    ensures var t := if s.lock.OpenSubmitted? then OpenReply(s, Err(failure), now) else OpenConfirm(cfg, s, Err(failure), now);
            var again := failure.code.ProviderDeclined? && s.lock.attempt < 2
                         && !s.policy.paused && !s.mem.maintenance && s.lock.model in s.policy.models;
            t.lock == if again then OpenChecking(s.lock.model, s.lock.attempt + 1, s.policy) else Free
  {
  }

  // ---------------------------------------------------------------- the door of acquire

  /** A caller is let in if and only if nothing is paused and fewer than 64 others wait. */
  lemma EntersIff(cfg: Config, s: State, task: Id, model: Id, prewarm: bool)
    requires task !in s.mem.borrowers
    ensures var t := AcquireBegin(s, task, model, prewarm);
            task in t.mem.borrowers <==> !s.policy.paused && !s.mem.maintenance && s.mem.waiting < 64
  {
  }

  lemma {:induction false} ScanWaiting(s: State, task: Id, model: Id, prewarm: bool, rest: seq<Row>, giveUp: bool)
    ensures Scan(s, task, model, prewarm, rest, giveUp).mem.waiting <= s.mem.waiting
    decreases |rest|
  {
    if rest != [] {
      ScanWaiting(s, task, model, prewarm, rest[1..], giveUp);
    }
  }

  lemma BorrowWaiting(cfg: Config, s: State, step: BorrowStep)
    requires CanBorrow(s, step) && s.mem.waiting <= 64
    ensures ApplyBorrow(cfg, s, step).mem.waiting <= 64
  {
    match step
    case PassAcquire(task, listing, giveUp) =>
      var Waiting(model, prewarm) := s.mem.borrowers[task];
      ScanWaiting(s, task, model, prewarm, listing, giveUp);
    case VerifyAcquire(task, read, now, giveUp) =>
      var Verifying(model, prewarm, row, rest) := s.mem.borrowers[task];
      var dropped := s.(mem := s.mem.(active := s.mem.active - {row.id}));
      match Judge(cfg, s, model, row, read, now) {
        case Skip(None) => ScanWaiting(dropped, task, model, prewarm, rest, giveUp);
        case Skip(Some(write)) => ScanWaiting(PutRow(dropped, write), task, model, prewarm, rest, giveUp);
        case _ =>
      }
    case _ =>
  }

  lemma {:induction false} WaitingBounded(cfg: Config, s: State, steps: seq<Step>, t: State)
    requires s.mem.waiting <= 64 && Run(cfg, s, steps, t)
    ensures t.mem.waiting <= 64
    decreases |steps|
  {
    if steps != [] {
      if steps[0].Borrows? {
        BorrowWaiting(cfg, s, steps[0].b);
      } else if !steps[0].Restarts? {
        Leases.Frame(cfg, s, steps[0]);
      }
      WaitingBounded(cfg, Apply(cfg, s, steps[0]), steps[1..], t);
    }
  }

  // ---------------------------------------------------------------- which session a scan takes

  /** A listed session that may be reserved: of the model, open when it was listed, and nobody's. */
  predicate Usable(s: State, model: Id, row: Row) {
    row.model == model && row.state.Open? && row.id !in s.mem.active
  }

  /** The first usable one is reserved. */
  lemma {:induction false} TakesFirst(s: State, task: Id, model: Id, prewarm: bool, rest: seq<Row>, giveUp: bool, i: nat)
    requires i < |rest| && Usable(s, model, rest[i]) && forall k :: 0 <= k < i ==> !Usable(s, model, rest[k])
    ensures var t := Scan(s, task, model, prewarm, rest, giveUp);
            && t.mem.active == s.mem.active + {rest[i].id}
            && t.mem.borrowers == s.mem.borrowers[task := Verifying(model, prewarm, rest[i], rest[i + 1..])]
    decreases |rest|
  {
    if i > 0 {
      assert !Usable(s, model, rest[0]);
      assert rest[1..][i - 1..][1..] == rest[i + 1..];
      forall k | 0 <= k < i - 1 ensures !Usable(s, model, rest[1..][k]) {
        assert !Usable(s, model, rest[k + 1]);
      }
      TakesFirst(s, task, model, prewarm, rest[1..], giveUp, i - 1);
    }
  }

  /** Without one the caller waits, unless it must give up or some opening is uncertain; nothing is reserved. */
  lemma {:induction false} TakesNone(s: State, task: Id, model: Id, prewarm: bool, rest: seq<Row>, giveUp: bool)
    requires forall k :: 0 <= k < |rest| ==> !Usable(s, model, rest[k])
    ensures var t := Scan(s, task, model, prewarm, rest, giveUp);
            && t.mem.active == s.mem.active
            && t.mem.borrowers == (if giveUp || exists id :: id in s.rows && s.rows[id].state.OpenUnknown?
                                   then s.mem.borrowers - {task}
                                   else s.mem.borrowers[task := Waiting(model, prewarm)])
    decreases |rest|
  {
    if rest != [] {
      assert !Usable(s, model, rest[0]);
      TakesNone(s, task, model, prewarm, rest[1..], giveUp);
    }
  }

  /** A pass over the listed sessions starts only if policy and maintenance admit the model; else the caller leaves. */
  lemma PassesIff(s: State, task: Id, listing: seq<Row>)
    requires task in s.mem.borrowers && s.mem.borrowers[task].Waiting?
    requires forall id :: id in s.rows ==> !s.rows[id].state.OpenUnknown?
    ensures var t := AcquirePass(s, task, listing, false);
            task in t.mem.borrowers <==>
              !s.mem.maintenance && !s.policy.paused && s.mem.borrowers[task].model in s.policy.models
  {
    var Waiting(model, prewarm) := s.mem.borrowers[task];
    StaysInside(s, task, model, prewarm, listing);
  }

  lemma {:induction false} StaysInside(s: State, task: Id, model: Id, prewarm: bool, rest: seq<Row>)
    requires forall id :: id in s.rows ==> !s.rows[id].state.OpenUnknown?
    ensures task in Scan(s, task, model, prewarm, rest, false).mem.borrowers
    decreases |rest|
  {
    if rest != [] {
      StaysInside(s, task, model, prewarm, rest[1..]);
    }
  }
}
