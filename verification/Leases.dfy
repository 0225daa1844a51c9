/**
 Leases on open sessions and the drain before a node restart.

 Every reserved session has exactly one owner, `acquire` returns only a session that is usable at that
 instant, every other exit gives back exactly its own reservation, and a graceful restart never overlaps
 a lease or a money-moving call.
 */
module Leases {
  import opened Options
  import opened SessionRows
  import opened Protocol
  import WalletSafety

  /** The session a borrower has reserved. */
  function Held(b: Borrower): Option<Id> {
    match b
    case Waiting(_, _) => None
    case Verifying(_, _, row, _) => Some(row.id)
    case Leased(id) => Some(id)
  }

  ghost function InAcquire(borrowers: map<Id, Borrower>): set<Id> {
    set t | t in borrowers && !borrowers[t].Leased?
  }

  ghost predicate OwnedBy(borrowers: map<Id, Borrower>, id: Id, task: Id) {
    task in borrowers && Held(borrowers[task]) == Some(id)
  }

  ghost predicate LeaseInv(active: set<Id>, waiting: nat, borrowers: map<Id, Borrower>) {
    && (forall t :: t in borrowers && Held(borrowers[t]).Some? ==> Held(borrowers[t]).value in active)
    && (forall id :: id in active ==> exists t :: OwnedBy(borrowers, id, t))
    && (forall t, u | t in borrowers && u in borrowers && Held(borrowers[t]).Some? ::
          Held(borrowers[t]) == Held(borrowers[u]) ==> t == u)
    && waiting == |InAcquire(borrowers)|
  }

  ghost predicate Leasing(s: State) {
    LeaseInv(s.mem.active, s.mem.waiting, s.mem.borrowers)
  }

  ghost predicate RestartInv(s: State) {
    && (s.mem.maintenance <==> !s.mem.restart.NoRestart?)
    && (s.mem.restart.HelperCalled? <==> s.lock.RestartHolding?)
    && ((s.mem.restart.AwaitingLock? || s.mem.restart.HelperCalled?) && !s.mem.restart.immediate ==> s.mem.active == {})
  }

  // ---------------------------------------------------------------- borrowers change one at a time

  /** `task` stops holding `id` and waits. */
  lemma DropKeeps(active: set<Id>, waiting: nat, borrowers: map<Id, Borrower>, task: Id, model: Id, prewarm: bool)
    requires LeaseInv(active, waiting, borrowers)
    requires task in borrowers && borrowers[task].Verifying?
    ensures LeaseInv(active - {borrowers[task].row.id}, waiting, borrowers[task := Waiting(model, prewarm)])
  {
    var b' := borrowers[task := Waiting(model, prewarm)];
    assert InAcquire(b') == InAcquire(borrowers);
    forall id | id in active - {borrowers[task].row.id} ensures exists t :: OwnedBy(b', id, t) {
      var t :| OwnedBy(borrowers, id, t);
      assert OwnedBy(b', id, t);
    }
  }

  lemma LeaveKeeps(active: set<Id>, waiting: nat, borrowers: map<Id, Borrower>, task: Id)
    requires LeaseInv(active, waiting, borrowers)
    requires task in borrowers && borrowers[task].Waiting?
    ensures waiting > 0 && LeaseInv(active, waiting - 1, borrowers - {task})
  {
    var b' := borrowers - {task};
    assert task in InAcquire(borrowers);
    assert InAcquire(b') == InAcquire(borrowers) - {task};
    forall id | id in active ensures exists t :: OwnedBy(b', id, t) {
      var t :| OwnedBy(borrowers, id, t);
      assert OwnedBy(b', id, t);
    }
  }

  lemma ReserveKeeps(active: set<Id>, waiting: nat, borrowers: map<Id, Borrower>, task: Id,
                     model: Id, prewarm: bool, row: Row, rest: seq<Row>)
    requires LeaseInv(active, waiting, borrowers)
    requires task in borrowers && borrowers[task].Waiting? && row.id !in active
    ensures LeaseInv(active + {row.id}, waiting, borrowers[task := Verifying(model, prewarm, row, rest)])
  {
    var b' := borrowers[task := Verifying(model, prewarm, row, rest)];
    assert InAcquire(b') == InAcquire(borrowers);
    forall id | id in active + {row.id} ensures exists t :: OwnedBy(b', id, t) {
      if id == row.id {
        assert OwnedBy(b', id, task);
      } else {
        var t :| OwnedBy(borrowers, id, t);
        assert OwnedBy(b', id, t);
      }
    }
  }

  lemma LeaseKeeps(active: set<Id>, waiting: nat, borrowers: map<Id, Borrower>, task: Id)
    requires LeaseInv(active, waiting, borrowers)
    requires task in borrowers && borrowers[task].Verifying?
    ensures waiting > 0 && LeaseInv(active, waiting - 1, borrowers[task := Leased(borrowers[task].row.id)])
  {
    var b' := borrowers[task := Leased(borrowers[task].row.id)];
    assert task in InAcquire(borrowers);
    assert InAcquire(b') == InAcquire(borrowers) - {task};
    forall id | id in active ensures exists t :: OwnedBy(b', id, t) {
      var t :| OwnedBy(borrowers, id, t);
      assert OwnedBy(b', id, t);
    }
  }

  lemma ReleaseKeeps(active: set<Id>, waiting: nat, borrowers: map<Id, Borrower>, task: Id)
    requires LeaseInv(active, waiting, borrowers)
    requires task in borrowers && borrowers[task].Leased?
    ensures LeaseInv(active - {borrowers[task].id}, waiting, borrowers - {task})
  {
    var b' := borrowers - {task};
    assert InAcquire(b') == InAcquire(borrowers);
    forall id | id in active - {borrowers[task].id} ensures exists t :: OwnedBy(b', id, t) {
      var t :| OwnedBy(borrowers, id, t);
      assert OwnedBy(b', id, t);
    }
  }

  lemma BeginKeeps(active: set<Id>, waiting: nat, borrowers: map<Id, Borrower>, task: Id, model: Id, prewarm: bool)
    requires LeaseInv(active, waiting, borrowers) && task !in borrowers
    ensures LeaseInv(active, waiting + 1, borrowers[task := Waiting(model, prewarm)])
  {
    var b' := borrowers[task := Waiting(model, prewarm)];
    assert task !in InAcquire(borrowers) && InAcquire(b') == InAcquire(borrowers) + {task};
    hide InAcquire;
    assert forall t :: t in b' && Held(b'[t]).Some? ==> t in borrowers && b'[t] == borrowers[t];
    forall id | id in active ensures exists t :: OwnedBy(b', id, t) {
      var t :| OwnedBy(borrowers, id, t);
      assert OwnedBy(b', id, t);
    }
  }

  // ---------------------------------------------------------------- the acquire loop

  ghost predicate OthersKept(before: map<Id, Borrower>, after: map<Id, Borrower>, task: Id) {
    before - {task} == after - {task}
  }

  /** The scan of a borrower that holds nothing: it ends holding one new session, waiting, or gone. */
  lemma {:induction false} ScanKeeps(s: State, task: Id, model: Id, prewarm: bool, rest: seq<Row>, giveUp: bool)
    requires task in s.mem.borrowers
    requires LeaseInv(s.mem.active, s.mem.waiting, s.mem.borrowers[task := Waiting(model, prewarm)])
    ensures var t := Scan(s, task, model, prewarm, rest, giveUp);
            && Leasing(t)
            && OthersKept(s.mem.borrowers, t.mem.borrowers, task)
            && (task !in t.mem.borrowers ==> t.mem.active == s.mem.active && t.mem.waiting == s.mem.waiting - 1)
            && (task in t.mem.borrowers ==> t.mem.waiting == s.mem.waiting && !t.mem.borrowers[task].Leased?)
    decreases |rest|
  {
    hide LeaseInv;
    var waiting := s.mem.borrowers[task := Waiting(model, prewarm)];
    if rest == [] {
      LeaveKeeps(s.mem.active, s.mem.waiting, waiting, task);
      assert waiting - {task} == s.mem.borrowers - {task};
    } else if rest[0].model == model && rest[0].state.Open? && rest[0].id !in s.mem.active {
      ReserveKeeps(s.mem.active, s.mem.waiting, waiting, task, model, prewarm, rest[0], rest[1..]);
      assert waiting[task := Verifying(model, prewarm, rest[0], rest[1..])]
          == s.mem.borrowers[task := Verifying(model, prewarm, rest[0], rest[1..])];
    } else {
      ScanKeeps(s, task, model, prewarm, rest[1..], giveUp);
    }
  }

  /** Exits of one verification, from the point of view of the borrower. */
  ghost predicate VerifyExit(cfg: Config, s: State, task: Id, now: int, t: State)
    requires task in s.mem.borrowers && s.mem.borrowers[task].Verifying?
  {
    var id := s.mem.borrowers[task].row.id;
    && OthersKept(s.mem.borrowers, t.mem.borrowers, task)
    // gone, by error, cancellation or prewarm: its reservation and its place in the queue are given back
    && (task !in t.mem.borrowers ==> t.mem.active == s.mem.active - {id} && t.mem.waiting == s.mem.waiting - 1)
    // still inside acquire: still counted as waiting
    && (task in t.mem.borrowers && !t.mem.borrowers[task].Leased? ==> t.mem.waiting == s.mem.waiting)
    // a lease: the caller owns an open, permitted session that outlives the request, and nobody else does
    && (task in t.mem.borrowers && t.mem.borrowers[task].Leased? ==>
          && !s.mem.borrowers[task].prewarm
          && t.mem.borrowers[task].id == id && t.mem.active == s.mem.active && id in t.mem.active
          && t.mem.waiting == s.mem.waiting - 1
          && id in t.rows && t.rows[id].state.Open?
          && t.rows[id].endsAt > now + cfg.requestTimeout + 15
          && t.rows[id].provider !in t.policy.deny
          && (t.policy.allowlistOnly ==> t.rows[id].provider in t.policy.allow)
          && s.mem.borrowers[task].model in t.policy.models
          && !t.policy.paused && !t.mem.maintenance)
  }

  /** The grant itself. */
  lemma GrantExit(cfg: Config, s: State, task: Id, read: Reply<Truth>, now: int, giveUp: bool)
    requires Leasing(s) && WalletSafety.Keyed(s) && task in s.mem.borrowers && s.mem.borrowers[task].Verifying?
    requires Judge(cfg, s, s.mem.borrowers[task].model, s.mem.borrowers[task].row, read, now).Grant?
    ensures Leasing(AcquireVerify(cfg, s, task, read, now, giveUp))
    ensures VerifyExit(cfg, s, task, now, AcquireVerify(cfg, s, task, read, now, giveUp))
  {
    var Verifying(model, prewarm, row, rest) := s.mem.borrowers[task];
    if prewarm {
      DropKeeps(s.mem.active, s.mem.waiting, s.mem.borrowers, task, model, prewarm);
      LeaveKeeps(s.mem.active - {row.id}, s.mem.waiting, s.mem.borrowers[task := Waiting(model, prewarm)], task);
      assert s.mem.borrowers[task := Waiting(model, prewarm)] - {task} == s.mem.borrowers - {task};
    } else {
      LeaseKeeps(s.mem.active, s.mem.waiting, s.mem.borrowers, task);
    }
  }

  lemma VerifyKeeps(cfg: Config, s: State, task: Id, read: Reply<Truth>, now: int, giveUp: bool)
    requires Leasing(s) && WalletSafety.Keyed(s) && task in s.mem.borrowers && s.mem.borrowers[task].Verifying?
    ensures Leasing(AcquireVerify(cfg, s, task, read, now, giveUp))
    ensures VerifyExit(cfg, s, task, now, AcquireVerify(cfg, s, task, read, now, giveUp))
  {
    hide Scan;
    hide MarkError;
    hide InAcquire;
    var Verifying(model, prewarm, row, rest) := s.mem.borrowers[task];
    var dropped := s.(mem := s.mem.(active := s.mem.active - {row.id}));
    var waiting := s.mem.borrowers[task := Waiting(model, prewarm)];
    DropKeeps(s.mem.active, s.mem.waiting, s.mem.borrowers, task, model, prewarm);
    match Judge(cfg, s, model, row, read, now)
    case Quit =>
      LeaveKeeps(dropped.mem.active, s.mem.waiting, waiting, task);
      assert waiting - {task} == s.mem.borrowers - {task};
    case Skip(None) => ScanKeeps(dropped, task, model, prewarm, rest, giveUp);
    case Skip(Some(write)) => ScanKeeps(PutRow(dropped, write), task, model, prewarm, rest, giveUp);
    case Grant(_) => GrantExit(cfg, s, task, read, now, giveUp);
  }

  lemma BorrowKeepsLeasing(cfg: Config, s: State, step: BorrowStep)
    requires Leasing(s) && WalletSafety.Keyed(s) && CanBorrow(s, step)
    ensures Leasing(ApplyBorrow(cfg, s, step))
  {
    match step
    case BeginAcquire(task, model, prewarm) =>
      BeginKeeps(s.mem.active, s.mem.waiting, s.mem.borrowers, task, model, prewarm);
    case PassAcquire(task, listing, giveUp) => PassKeeps(s, task, listing, giveUp);
    case VerifyAcquire(task, read, now, giveUp) => VerifyKeeps(cfg, s, task, read, now, giveUp);
    case AbandonAcquire(task) => LeaveKeeps(s.mem.active, s.mem.waiting, s.mem.borrowers, task);
    case ReleaseLease(task, _) => ReleaseKeeps(s.mem.active, s.mem.waiting, s.mem.borrowers, task);
    case InvalidateLease(_) =>
  }

  lemma PassKeeps(s: State, task: Id, listing: seq<Row>, giveUp: bool)
    requires Leasing(s) && task in s.mem.borrowers && s.mem.borrowers[task].Waiting?
    ensures Leasing(AcquirePass(s, task, listing, giveUp))
  {
    var Waiting(model, prewarm) := s.mem.borrowers[task];
    assert s.mem.borrowers[task := Waiting(model, prewarm)] == s.mem.borrowers;
    ScanKeeps(s, task, model, prewarm, listing, giveUp);
    LeaveKeeps(s.mem.active, s.mem.waiting, s.mem.borrowers, task);
  }

  /** Money-moving tasks and the reconciler leave the memory of borrowers and restarts alone. */
  ghost predicate KeepsMemory(s: State, t: State) {
    t.mem == s.mem && (t.lock.RestartHolding? <==> s.lock.RestartHolding?)
  }

  lemma OpenFrame(cfg: Config, s: State, step: OpenStep)
    requires CanOpen(s, step)
    ensures KeepsMemory(s, ApplyOpen(cfg, s, step))
  {
  }

  lemma CloseFrame(cfg: Config, s: State, step: CloseStep)
    requires CanClose(s, step)
    ensures KeepsMemory(s, ApplyClose(cfg, s, step))
  {
  }

  lemma TreasuryFrame(s: State, step: TreasuryStep)
    requires CanWithdraw(s, step)
    ensures KeepsMemory(s, ApplyTreasury(s, step))
  {
  }

  lemma BorrowFrame(cfg: Config, s: State, step: BorrowStep)
    requires CanBorrow(s, step)
    ensures var t := ApplyBorrow(cfg, s, step);
            t.lock == s.lock && t.mem.maintenance == s.mem.maintenance && t.mem.restart == s.mem.restart
  {
    match step
    case PassAcquire(task, listing, giveUp) =>
      var Waiting(model, prewarm) := s.mem.borrowers[task];
      WalletSafety.ScanFrame(s, task, model, prewarm, listing, giveUp);
    case VerifyAcquire(task, read, now, giveUp) => WalletSafety.VerifyFrame(cfg, s, task, read, now, giveUp);
    case _ =>
  }

  lemma Frame(cfg: Config, s: State, step: Step)
    requires Enabled(s, step) && !step.Borrows? && !step.Restarts?
    ensures KeepsMemory(s, Apply(cfg, s, step))
  {
    match step
    case Opens(o) => OpenFrame(cfg, s, o);
    case Closes(c) => CloseFrame(cfg, s, c);
    case Withdraws(w) => TreasuryFrame(s, w);
    case Reconciles(_) =>
    case Tends(_) =>
  }

  lemma StepKeepsLeasing(cfg: Config, s: State, step: Step)
    requires Leasing(s) && WalletSafety.Keyed(s) && Enabled(s, step)
    ensures Leasing(Apply(cfg, s, step))
  {
    if step.Borrows? {
      BorrowKeepsLeasing(cfg, s, step.b);
    } else if step.Restarts? {
      EmptyLeaseInv();
    } else {
      Frame(cfg, s, step);
    }
  }

  lemma EmptyLeaseInv()
    ensures LeaseInv({}, 0, map[])
  {
    assert InAcquire(map[]) == {};
  }

  // ---------------------------------------------------------------- restart

  /** Without a reservation nobody is inside a scan, and maintenance keeps every new pass from reserving. */
  lemma BorrowKeepsEmpty(cfg: Config, s: State, step: BorrowStep)
    requires Leasing(s) && s.mem.maintenance && s.mem.active == {} && CanBorrow(s, step)
    ensures ApplyBorrow(cfg, s, step).mem.active == {}
  {
    assert forall t :: t in s.mem.borrowers ==> Held(s.mem.borrowers[t]).None?;
  }

  lemma StepKeepsRestartInv(cfg: Config, s: State, step: Step)
    requires Leasing(s) && RestartInv(s) && Enabled(s, step)
    ensures RestartInv(Apply(cfg, s, step))
  {
    if step.Borrows? {
      BorrowFrame(cfg, s, step.b);
      if s.mem.maintenance && s.mem.active == {} {
        BorrowKeepsEmpty(cfg, s, step.b);
      }
    } else if !step.Restarts? {
      Frame(cfg, s, step);
    }
  }

  ghost predicate Inv(s: State) {
    WalletSafety.WalletInv(s) && Leasing(s) && RestartInv(s)
  }

  lemma StepKeepsInv(cfg: Config, s: State, step: Step)
    requires Inv(s) && Enabled(s, step)
    ensures Inv(Apply(cfg, s, step))
  {
    WalletSafety.StepKeepsWalletInv(cfg, s, step);
    StepKeepsLeasing(cfg, s, step);
    StepKeepsRestartInv(cfg, s, step);
  }

  lemma {:induction false} RunKeepsInv(cfg: Config, s: State, steps: seq<Step>, t: State)
    requires Inv(s) && Run(cfg, s, steps, t)
    ensures Inv(t)
    decreases |steps|
  {
    if steps != [] {
      StepKeepsInv(cfg, s, steps[0]);
      RunKeepsInv(cfg, Apply(cfg, s, steps[0]), steps[1..], t);
    }
  }

  lemma Reachable(cfg: Config, init: State, steps: seq<Step>, s: State)
    requires Init(init) && Run(cfg, init, steps, s)
    ensures Inv(s)
  {
    EmptyLeaseInv();
    RunKeepsInv(cfg, init, steps, s);
  }

  // ---------------------------------------------------------------- theorems

  /** Every reserved session has exactly one owner, and `waiting` counts those inside `acquire`. */
  lemma ExactlyOneOwner(cfg: Config, init: State, steps: seq<Step>, s: State)
    requires Init(init) && Run(cfg, init, steps, s)
    ensures forall id :: id in s.mem.active <==> exists t :: OwnedBy(s.mem.borrowers, id, t)
    ensures forall id, t, u :: OwnedBy(s.mem.borrowers, id, t) && OwnedBy(s.mem.borrowers, id, u) ==> t == u
    ensures s.mem.waiting == |InAcquire(s.mem.borrowers)|
  {
    Reachable(cfg, init, steps, s);
  }

  lemma NobodyOwns(s: State, id: Id)
    requires Leasing(s) && id !in s.mem.active
    ensures forall task :: !OwnedBy(s.mem.borrowers, id, task)
  {
    hide InAcquire;
  }

  lemma CloseSparesActive(cfg: Config, s: State, step: CloseStep)
    requires WalletSafety.Keyed(s) && CanClose(s, step)
    ensures var t := ApplyClose(cfg, s, step);
            t.lock.CloseReading? && t.lock != s.lock ==> t.lock.row.id !in s.mem.active
  {
  }

  /** A close is taken up only if no task has the session reserved or leased at that instant. */
  lemma CloseSparesReserved(cfg: Config, s: State, step: Step)
    requires Leasing(s) && WalletSafety.Keyed(s) && Enabled(s, step)
    ensures var t := Apply(cfg, s, step);
            t.lock.CloseReading? && t.lock != s.lock ==>
              && t.lock.row.id !in s.mem.active
              && forall task :: !OwnedBy(s.mem.borrowers, t.lock.row.id, task)
  {
    hide LeaseInv;
    match step
    case Borrows(b) => BorrowFrame(cfg, s, b);
    case Opens(o) => OpenTakesNoClose(cfg, s, o);
    case Closes(c) =>
      CloseSparesActive(cfg, s, c);
      var lock := ApplyClose(cfg, s, c).lock;
      if lock.CloseReading? && lock != s.lock {
        NobodyOwns(s, lock.row.id);
      }
    case _ =>
  }

  lemma OpenTakesNoClose(cfg: Config, s: State, step: OpenStep)
    requires CanOpen(s, step)
    ensures !ApplyOpen(cfg, s, step).lock.CloseReading?
  {
  }

  /** From the helper request until the lock is released, no lease is held and no wallet call is outstanding. */
  lemma RestartExcludes(cfg: Config, init: State, steps: seq<Step>, s: State)
    requires Init(init) && Run(cfg, init, steps, s)
    requires s.mem.restart.HelperCalled? && !s.mem.restart.immediate
    ensures s.mem.maintenance && s.lock.RestartHolding?
    ensures forall t :: t in s.mem.borrowers ==> s.mem.borrowers[t].Waiting?
  {
    Reachable(cfg, init, steps, s);
    forall t | t in s.mem.borrowers ensures s.mem.borrowers[t].Waiting? {
      assert Held(s.mem.borrowers[t]).None?;
    }
  }

  /** Steps that clear the maintenance flag. */
  predicate EndsMaintenance(step: Step) {
    step.Restarts? && (step.x.EndRestart? || step.x.TimeoutRestart? || step.x.CrashAndStart?)
  }

  predicate Drained(s: State) {
    (s.mem.restart.AwaitingLock? || s.mem.restart.HelperCalled?) && !s.mem.restart.immediate
  }

  lemma StepKeepsDrained(cfg: Config, s: State, step: Step)
    requires RestartInv(s) && Drained(s) && Enabled(s, step) && !EndsMaintenance(step)
    ensures Drained(Apply(cfg, s, step)) && Apply(cfg, s, step).mem.maintenance
  {
    if step.Borrows? {
      BorrowFrame(cfg, s, step.b);
    } else if !step.Restarts? {
      Frame(cfg, s, step);
    }
  }

  /** Once a draining restart has seen `active` empty, it stays empty until maintenance is cleared. */
  lemma {:induction false} SeenEmptyStaysEmpty(cfg: Config, s: State, steps: seq<Step>, t: State)
    requires Inv(s) && Drained(s) && Run(cfg, s, steps, t)
    requires forall i :: 0 <= i < |steps| ==> !EndsMaintenance(steps[i])
    ensures t.mem.active == {} && t.mem.maintenance
    decreases |steps|
  {
    if steps != [] {
      StepKeepsInv(cfg, s, steps[0]);
      StepKeepsDrained(cfg, s, steps[0]);
      SeenEmptyStaysEmpty(cfg, Apply(cfg, s, steps[0]), steps[1..], t);
    }
  }
}
