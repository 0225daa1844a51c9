/**
 One uncertain wallet transaction at a time: in every reachable state at most one session row or withdrawal
 is unresolved, and the gateway submits only when nothing else is.
 */
module WalletSafety {
  import opened Options
  import opened SessionRows
  import opened Protocol

  datatype Item = RowItem(id: Id) | WithdrawalItem(id: Id)

  predicate Unresolved(rows: map<Id, Row>, ops: map<Id, Op>, x: Item) {
    match x
    case RowItem(id) => id in rows && RowUnresolved(rows[id])
    case WithdrawalItem(id) => id in ops && OpUnresolved(ops[id])
  }

  /** The item whose outcome the lock holder may still write, even if the store no longer shows it. */
  function Carried(holder: Holder): Option<Item> {
    match holder
    case OpenSubmitted(_, _, row) => Some(RowItem(row.id))
    case OpenConfirming(_, _, row) => Some(RowItem(row.id))
    case CloseReading(row) => if RowUnresolved(row) then Some(RowItem(row.id)) else None
    case CloseSubmitted(row) => Some(RowItem(row.id))
    case CloseConfirming(row) => Some(RowItem(row.id))
    case WithdrawSubmitted(op) => Some(WithdrawalItem(op.id))
    case _ => None
  }

  ghost predicate NothingBut(s: State, item: Option<Item>) {
    forall x :: Unresolved(s.rows, s.ops, x) ==> Some(x) == item
  }

  /** Records sit under their own ids, and no withdrawal is ever queued. */
  ghost predicate Keyed(s: State) {
    && (forall id :: id in s.rows ==> s.rows[id].id == id)
    && (forall id :: id in s.ops ==> s.ops[id].id == id && !(s.ops[id].kind.Withdrawal? && s.ops[id].state.Queued?))
  }

  ghost predicate AtMostOne(s: State) {
    forall x, y :: Unresolved(s.rows, s.ops, x) && Unresolved(s.rows, s.ops, y) ==> x == y
  }

  ghost predicate WalletInv(s: State) {
    && Keyed(s)
    && AtMostOne(s)
    && (Carried(s.lock).Some? ==> NothingBut(s, Carried(s.lock)))
    && (s.lock.OpenQuoting? ==> NothingBut(s, None))
    && (s.lock.TreasuryScanning? ==>
          forall id :: Unresolved(s.rows, s.ops, WithdrawalItem(id)) ==> id in s.lock.todo)
  }

  /** `t` shows no unresolved item that `s` does not show. */
  ghost predicate Shrinks(s: State, t: State) {
    forall x :: Unresolved(t.rows, t.ops, x) ==> Unresolved(s.rows, s.ops, x)
  }

  /** A step of a task that does not hold the lock, or one that gives the lock up without a trace. */
  ghost predicate Harmless(s: State, t: State) {
    Keyed(t) && Shrinks(s, t) && (t.lock == s.lock || t.lock.Free?)
  }

  lemma HarmlessKeeps(s: State, t: State)
    requires WalletInv(s) && Harmless(s, t)
    ensures WalletInv(t)
  {
  }

  // ---------------------------------------------------------------- segments without the lock

  lemma PutRowShrinks(s: State, row: Row)
    requires Keyed(s)
    requires RowUnresolved(row) ==> row.id in s.rows && RowUnresolved(s.rows[row.id])
    ensures Keyed(PutRow(s, row)) && Shrinks(s, PutRow(s, row))
  {
  }

  lemma JournalHarmless(s: State, snapshot: Row, progress: Option<Progress>, now: int)
    requires Keyed(s)
    ensures Harmless(s, ReconcileJournal(s, snapshot, progress, now))
  {
    if (snapshot.state.OpenUnknown? || snapshot.state.ClosePending?) && Unchanged(s, snapshot) && progress.Some? {
      PutRowShrinks(s, JournalRow(snapshot, progress.value, now));
    }
  }

  lemma TruthHarmless(cfg: Config, s: State, snapshot: Row, read: Reply<Truth>, receipts: Reply<seq<Receipt>>, now: int)
    requires Keyed(s)
    ensures Harmless(s, ReconcileTruth(cfg, s, snapshot, read, receipts, now))
  {
    if Unchanged(s, snapshot) {
      PutRowShrinks(s, MarkError(snapshot, now));
      if read.Ok? {
        PutRowShrinks(s, RecordClosed(snapshot, read.value));
        PutRowShrinks(s, RunningRow(snapshot, read.value, CloseTxState(snapshot, receipts), now));
      }
    }
  }

  lemma ReceiptsHarmless(s: State, id: Id, receipts: Reply<seq<Receipt>>, now: int)
    requires Keyed(s)
    ensures Harmless(s, ReconcileReceipts(s, id, receipts, now))
  {
    if id in s.rows {
      PutRowShrinks(s, MarkError(s.rows[id], now));
      PutRowShrinks(s, s.rows[id].(state := Failed));
    }
  }

  lemma BindHarmless(cfg: Config, s: State, id: Id, chainId: Id, truth: Truth)
    requires Keyed(s)
    ensures Harmless(s, Bind(cfg, s, id, chainId, truth))
  {
  }

  lemma NoteHarmless(s: State, id: Id, candidate: Option<Id>, now: int)
    requires Keyed(s)
    ensures Harmless(s, SweepNote(s, id, candidate, now))
  {
    if id in s.rows {
      PutRowShrinks(s, MarkError(s.rows[id], now));
    }
  }

  lemma AdoptHarmless(cfg: Config, s: State, id: Id, truth: Truth, now: int, retryAt: int)
    requires Keyed(s)
    ensures Harmless(s, SweepAdopt(cfg, s, id, truth, now, retryAt))
  {
  }

  /** The scan touches reservations only. */
  lemma {:induction false} ScanFrame(s: State, task: Id, model: Id, prewarm: bool, rest: seq<Row>, giveUp: bool)
    ensures var t := Scan(s, task, model, prewarm, rest, giveUp);
            && t == s.(mem := t.mem)
            && t.mem.maintenance == s.mem.maintenance && t.mem.restart == s.mem.restart
    decreases |rest|
  {
    if rest != [] {
      ScanFrame(s, task, model, prewarm, rest[1..], giveUp);
    }
  }

  /** The row that a verification writes, if any. */
  function Written(verdict: Verdict): Option<Row> {
    match verdict
    case Quit => None
    case Skip(write) => write
    case Grant(row) => Some(row)
  }

  /** What a verification does to the store: at most one write, of the reserved row, to a resolved state. */
  lemma VerifyFrame(cfg: Config, s: State, task: Id, read: Reply<Truth>, now: int, giveUp: bool)
    requires task in s.mem.borrowers && s.mem.borrowers[task].Verifying?
    ensures var t := AcquireVerify(cfg, s, task, read, now, giveUp);
            var Verifying(model, _, row, _) := s.mem.borrowers[task];
            var write := Written(Judge(cfg, s, model, row, read, now));
            && t == s.(rows := t.rows, mem := t.mem)
            && t.mem.maintenance == s.mem.maintenance && t.mem.restart == s.mem.restart
            && t.rows == (if write.Some? then s.rows[write.value.id := write.value] else s.rows)
            && (write.Some? ==> !RowUnresolved(write.value))
  {
    var Verifying(model, prewarm, row, rest) := s.mem.borrowers[task];
    var dropped := s.(mem := s.mem.(active := s.mem.active - {row.id}));
    match Judge(cfg, s, model, row, read, now)
    case Quit =>
    case Skip(None) => ScanFrame(dropped, task, model, prewarm, rest, giveUp);
    case Skip(Some(write)) => ScanFrame(PutRow(dropped, write), task, model, prewarm, rest, giveUp);
    case Grant(_) =>
  }

  lemma PassHarmless(s: State, task: Id, listing: seq<Row>, giveUp: bool)
    requires Keyed(s) && task in s.mem.borrowers && s.mem.borrowers[task].Waiting?
    ensures Harmless(s, AcquirePass(s, task, listing, giveUp))
  {
    var Waiting(model, prewarm) := s.mem.borrowers[task];
    ScanFrame(s, task, model, prewarm, listing, giveUp);
  }

  lemma VerifyHarmless(cfg: Config, s: State, task: Id, read: Reply<Truth>, now: int, giveUp: bool)
    requires Keyed(s) && task in s.mem.borrowers && s.mem.borrowers[task].Verifying?
    ensures Harmless(s, AcquireVerify(cfg, s, task, read, now, giveUp))
  {
    VerifyFrame(cfg, s, task, read, now, giveUp);
    var Verifying(model, _, row, _) := s.mem.borrowers[task];
    var write := Written(Judge(cfg, s, model, row, read, now));
    if write.Some? {
      PutRowShrinks(s, write.value);
    }
  }

  lemma LeaseHarmless(s: State, task: Id, now: int)
    requires Keyed(s) && task in s.mem.borrowers && s.mem.borrowers[task].Leased?
    ensures Harmless(s, Release(s, task, now)) && Harmless(s, Invalidate(s, task))
  {
    var id := s.mem.borrowers[task].id;
    if id in s.rows {
      PutRowShrinks(s, s.rows[id].(lastUsed := now));
      PutRowShrinks(s, s.rows[id].(state := Draining));
    }
  }

  lemma UpkeepHarmless(s: State, step: UpkeepStep)
    requires Keyed(s)
    ensures Harmless(s, ApplyUpkeep(s, step))
  {
  }

  lemma RebootHarmless(s: State, helperDone: set<Id>)
    requires Keyed(s)
    ensures Harmless(s, Reboot(s, helperDone))
  {
  }

  lemma SetOpStateHarmless(s: State, id: Id, state: OpState)
    requires Keyed(s) && !state.Submitting? && !state.Uncertain? && !state.Pending? && !state.Queued?
    ensures Harmless(s, SetOpState(s, id, state))
  {
  }

  lemma RestartHarmless(s: State, step: RestartStep)
    requires Keyed(s) && CanRestart(s, step) && !step.LockRestart?
    ensures Harmless(s, ApplyRestart(s, step))
  {
    match step
    case RequestRestart(_, _, _) =>
    case PollRestart => SetOpStateHarmless(s, s.mem.restart.op, OpDraining);
    case EndRestart(ok) => SetOpStateHarmless(s, s.mem.restart.op, if ok then Succeeded else OpFailed);
    case TimeoutRestart => SetOpStateHarmless(s, s.mem.restart.op, OpFailed);
    case CrashAndStart(helperDone) => RebootHarmless(s, helperDone);
  }

  lemma ReconcileHarmless(cfg: Config, s: State, step: ReconcileStep)
    requires Keyed(s)
    ensures Harmless(s, ApplyReconcile(cfg, s, step))
  {
    match step
    case FromJournal(snapshot, progress, now) => JournalHarmless(s, snapshot, progress, now);
    case FromTruth(snapshot, read, receipts, now) => TruthHarmless(cfg, s, snapshot, read, receipts, now);
    case FromReceipts(id, receipts, now) => ReceiptsHarmless(s, id, receipts, now);
    case BindSession(id, chainId, truth) => BindHarmless(cfg, s, id, chainId, truth);
    case NoteCandidate(id, candidate, now) => NoteHarmless(s, id, candidate, now);
    case AdoptSession(rowId, truth, now, retryAt) => AdoptHarmless(cfg, s, rowId, truth, now, retryAt);
  }

  lemma BorrowHarmless(cfg: Config, s: State, step: BorrowStep)
    requires Keyed(s) && CanBorrow(s, step)
    ensures Harmless(s, ApplyBorrow(cfg, s, step))
  {
    match step
    case BeginAcquire(_, _, _) =>
    case PassAcquire(task, listing, giveUp) => PassHarmless(s, task, listing, giveUp);
    case VerifyAcquire(task, read, now, giveUp) => VerifyHarmless(cfg, s, task, read, now, giveUp);
    case AbandonAcquire(_) =>
    case ReleaseLease(task, now) => LeaseHarmless(s, task, now);
    case InvalidateLease(task) => LeaseHarmless(s, task, 0);
  }

  // ---------------------------------------------------------------- segments of the lock holder

  /** A write by the holder of the only item that may be unresolved. */
  lemma PutCarried(s: State, row: Row)
    requires Keyed(s) && NothingBut(s, Some(RowItem(row.id)))
    ensures Keyed(PutRow(s, row)) && NothingBut(PutRow(s, row), Some(RowItem(row.id)))
    ensures !RowUnresolved(row) ==> NothingBut(PutRow(s, row), None)
  {
  }

  lemma OpenErrorKeeps(s: State, model: Id, attempt: nat, row: Row, failure: Failure, now: int)
    requires Keyed(s) && NothingBut(s, Some(RowItem(row.id)))
    ensures WalletInv(OpenError(s, model, attempt, row, failure, now))
  {
    var row' := MarkError(
      row.(state := if failure.outcome.NotSubmitted? then Failed else OpenUnknown,
           transactions := if failure.transactions != [] then failure.transactions else row.transactions),
      now);
    PutCarried(s, row');
  }

  lemma OpenCheckKeeps(s: State, reply: Reply<()>, listing: seq<Row>)
    requires WalletInv(s) && s.lock.OpenChecking?
    ensures WalletInv(OpenCheck(s, reply, listing))
  {
    assert ClearWallet(s, None) ==> NothingBut(s, None);
  }

  lemma OpenSubmitKeeps(s: State, reply: Reply<Quote>, newId: Id, now: int)
    requires WalletInv(s) && s.lock.OpenQuoting?
    ensures WalletInv(OpenSubmit(s, reply, newId, now))
  {
    var OpenQuoting(model, attempt, policy, reserved) := s.lock;
    if reply.Ok? {
      PutCarried(s, NewRow(newId, model, reply.value, StakeLimit(policy, reserved, reply.value), now));
    }
  }

  lemma OpenReplyKeeps(s: State, reply: Reply<OpenAnswer>, now: int)
    requires WalletInv(s) && s.lock.OpenSubmitted?
    ensures WalletInv(OpenReply(s, reply, now))
  {
    var OpenSubmitted(model, attempt, row) := s.lock;
    OpenErrorKeeps(s, model, attempt, row, PROTOCOL_ERROR, now);
    match reply
    case Ok(answer) => PutCarried(s, row.(chainId := answer.sessionId, transactions := answer.transactions));
    case Err(failure) => OpenErrorKeeps(s, model, attempt, row, failure, now);
    case Cancelled => PutCarried(s, row.(state := OpenUnknown));
  }

  lemma OpenConfirmKeeps(cfg: Config, s: State, reply: Reply<Truth>, now: int)
    requires WalletInv(s) && s.lock.OpenConfirming?
    ensures WalletInv(OpenConfirm(cfg, s, reply, now))
  {
    var OpenConfirming(model, attempt, row) := s.lock;
    OpenErrorKeeps(s, model, attempt, row, PROTOCOL_ERROR, now);
    match reply
    case Ok(truth) =>
      forall state: SessionState {
        PutCarried(s, row.(state := state, endsAt := truth.endsAt, stake := truth.stake));
      }
    case Err(failure) => OpenErrorKeeps(s, model, attempt, row, failure, now);
    case Cancelled => PutCarried(s, row.(state := OpenUnknown));
  }

  lemma CloseCheckKeeps(s: State, reply: Reply<()>, now: int)
    requires WalletInv(s) && s.lock.CloseChecking?
    ensures WalletInv(CloseCheck(s, reply, now))
  {
    var id := s.lock.id;
    var unlocked := s.(lock := Free);
    if id in s.rows {
      PutRowShrinks(unlocked, MarkError(s.rows[id], now));
      PutRowShrinks(unlocked, s.rows[id].(state := Draining));
      assert RowUnresolved(s.rows[id]) ==> Unresolved(s.rows, s.ops, RowItem(id));
    }
  }

  /** The first read of a close fails, or forbids the submission: the row it started from is written back. */
  lemma CloseBackoffKeeps(s: State, now: int)
    requires WalletInv(s) && s.lock.CloseReading?
    ensures WalletInv(PutRow(s.(lock := Free), MarkError(s.lock.row, now)))
  {
    var row := MarkError(s.lock.row, now);
    if RowUnresolved(row) {
      PutCarried(s, row);
    } else {
      PutRowShrinks(s, row);
    }
  }

  lemma CloseReadKeeps(cfg: Config, s: State, reply: Reply<Truth>, newOp: Id, now: int)
    requires WalletInv(s) && s.lock.CloseReading?
    ensures WalletInv(CloseRead(cfg, s, reply, newOp, now))
  {
    var row := s.lock.row;
    CloseBackoffKeeps(s, now);
    match reply
    case Cancelled =>
    case Err(_) =>
    case Ok(truth) =>
      if ValidTruth(cfg.wallet, row, truth) {
        if truth.closedAt != 0 {
          PutRowShrinks(s, RecordClosed(row, truth));
        } else if ClearWallet(s, Some(row.id)) {
          assert NothingBut(s, Some(RowItem(row.id)));
          PutCarried(s, row.(state := Closing, closeOp := Some(newOp)));
        }
      }
  }

  lemma CloseErrorKeeps(s: State, row: Row, failure: Failure, now: int)
    requires Keyed(s) && NothingBut(s, Some(RowItem(row.id)))
    ensures WalletInv(CloseError(s, row, failure, now))
  {
    var row' := row.(state := if failure.outcome.NotSubmitted? then Draining else ClosePending,
                     closeTransactions := failure.transactions);
    PutCarried(s, MarkError(MarkError(row', now), now));
  }

  lemma CloseReplyKeeps(s: State, reply: Reply<Option<Tx>>, now: int)
    requires WalletInv(s) && s.lock.CloseSubmitted?
    ensures WalletInv(CloseReply(s, reply, now))
  {
    var row := s.lock.row;
    match reply
    case Ok(tx) => PutCarried(s, row.(closeTx := tx, state := ClosePending));
    case Err(failure) => CloseErrorKeeps(s, row, failure, now);
    case Cancelled => PutCarried(s, row.(state := ClosePending));
  }

  lemma CloseConfirmKeeps(cfg: Config, s: State, reply: Reply<Truth>, now: int)
    requires WalletInv(s) && s.lock.CloseConfirming?
    ensures WalletInv(CloseConfirm(cfg, s, reply, now))
  {
    var row := s.lock.row;
    CloseErrorKeeps(s, row, PROTOCOL_ERROR, now);
    match reply
    case Ok(truth) => PutCarried(s, RecordClosed(row, truth));
    case Err(failure) => CloseErrorKeeps(s, row, failure, now);
    case Cancelled => PutCarried(s, row.(state := ClosePending));
  }

  /** A write that does not make an operation unresolved. */
  lemma PutOpShrinks(s: State, op: Op)
    requires Keyed(s) && !(op.kind.Withdrawal? && op.state.Queued?)
    requires OpUnresolved(op) ==> op.id in s.ops && OpUnresolved(s.ops[op.id])
    ensures Keyed(PutOp(s, op)) && Shrinks(s, PutOp(s, op))
  {
  }

  lemma TreasuryResolveKeeps(s: State, progress: Option<Progress>, receipts: Reply<seq<Receipt>>)
    requires WalletInv(s) && s.lock.TreasuryScanning? && s.lock.todo != [] && s.lock.todo[0] in s.ops
    ensures WalletInv(TreasuryResolve(s, progress, receipts))
  {
    var todo := s.lock.todo;
    assert todo == [todo[0]] + todo[1..];
    var op := s.ops[todo[0]];
    var op' := if progress.Some? then op.(transactions := progress.value.transactions) else op;
    var verdict := WithdrawalVerdict(op', progress, receipts);
    var final := if verdict.Some? then op'.(state := verdict.value) else op';
    PutOpShrinks(s, final);
  }

  lemma TreasurySubmitKeeps(s: State, due: bool, newId: Id, now: int)
    requires WalletInv(s) && s.lock.TreasuryScanning? && s.lock.todo == []
    ensures WalletInv(TreasurySubmit(s, due, newId, now))
  {
  }

  lemma WithdrawReplyKeeps(s: State, reply: Reply<Option<Tx>>)
    requires WalletInv(s) && s.lock.WithdrawSubmitted?
    ensures WalletInv(WithdrawReply(s, reply))
  {
    var t := WithdrawReply(s, reply);
    forall x | Unresolved(t.rows, t.ops, x) ensures x == WithdrawalItem(s.lock.op.id) {
      assert x != WithdrawalItem(s.lock.op.id) ==> Unresolved(s.rows, s.ops, x);
    }
  }

  /** Taking or passing on the lock without an item in hand. */
  lemma LockKeeps(s: State, holder: Holder)
    requires WalletInv(s) && Carried(holder).None? && !holder.OpenQuoting?
    requires holder.TreasuryScanning? ==> IsWithdrawalList(s.ops, holder.todo)
    ensures WalletInv(s.(lock := holder))
  {
  }

  lemma RestartLockKeeps(s: State)
    requires WalletInv(s) && s.mem.restart.AwaitingLock? && s.lock.Free?
    ensures WalletInv(RestartLock(s))
  {
    SetOpStateHarmless(s, s.mem.restart.op, Restarting);
    HarmlessKeeps(s, SetOpState(s, s.mem.restart.op, Restarting));
  }

  lemma OpenKeeps(cfg: Config, s: State, step: OpenStep)
    requires WalletInv(s) && CanOpen(s, step)
    ensures WalletInv(ApplyOpen(cfg, s, step))
  {
    match step
    case BeginOpen(model) => LockKeeps(s, OpenBegin(s, model).lock);
    case CheckOpen(checked, listing) => OpenCheckKeeps(s, checked, listing);
    case SubmitOpen(quoted, newId, now) => OpenSubmitKeeps(s, quoted, newId, now);
    case ReplyOpen(answered, now) => OpenReplyKeeps(s, answered, now);
    case ConfirmOpen(confirmed, now) => OpenConfirmKeeps(cfg, s, confirmed, now);
  }

  lemma CloseKeeps(cfg: Config, s: State, step: CloseStep)
    requires WalletInv(s) && CanClose(s, step)
    ensures WalletInv(ApplyClose(cfg, s, step))
  {
    match step
    case BeginClose(id) => LockKeeps(s, CloseBegin(s, id).lock);
    case CheckClose(checked, now) => CloseCheckKeeps(s, checked, now);
    case SubmitClose(read, newId, now) => CloseReadKeeps(cfg, s, read, newId, now);
    case ReplyClose(closed, now) => CloseReplyKeeps(s, closed, now);
    case ConfirmClose(confirmed, now) => CloseConfirmKeeps(cfg, s, confirmed, now);
  }

  lemma TreasuryKeeps(s: State, step: TreasuryStep)
    requires WalletInv(s) && CanWithdraw(s, step)
    ensures WalletInv(ApplyTreasury(s, step))
  {
    match step
    case BeginTreasury => LockKeeps(s, TreasuryBegin(s).lock);
    case ListTreasury(checked, todo) => LockKeeps(s, TreasuryList(s, checked, todo).lock);
    case ResolveWithdrawal(progress, receipts) => TreasuryResolveKeeps(s, progress, receipts);
    case SubmitWithdrawal(due, newId, now) => TreasurySubmitKeeps(s, due, newId, now);
    case ReplyWithdrawal(withdrawn) => WithdrawReplyKeeps(s, withdrawn);
    case RefreshTreasury => LockKeeps(s, Free);
  }

  lemma StepKeepsWalletInv(cfg: Config, s: State, step: Step)
    requires WalletInv(s) && Enabled(s, step)
    ensures WalletInv(Apply(cfg, s, step))
  {
    var t := Apply(cfg, s, step);
    match step
    case Opens(o) => OpenKeeps(cfg, s, o);
    case Closes(c) => CloseKeeps(cfg, s, c);
    case Withdraws(w) => TreasuryKeeps(s, w);
    case Reconciles(r) => ReconcileHarmless(cfg, s, r); HarmlessKeeps(s, t);
    case Borrows(b) => BorrowHarmless(cfg, s, b); HarmlessKeeps(s, t);
    case Tends(u) => UpkeepHarmless(s, u); HarmlessKeeps(s, t);
    case Restarts(x) =>
      if x.LockRestart? {
        RestartLockKeeps(s);
      } else {
        RestartHarmless(s, x);
        HarmlessKeeps(s, t);
      }
  }

  lemma {:induction false} RunKeepsWalletInv(cfg: Config, s: State, steps: seq<Step>, t: State)
    requires WalletInv(s) && Run(cfg, s, steps, t)
    ensures WalletInv(t)
    decreases |steps|
  {
    if steps != [] {
      StepKeepsWalletInv(cfg, s, steps[0]);
      RunKeepsWalletInv(cfg, Apply(cfg, s, steps[0]), steps[1..], t);
    }
  }

  // ---------------------------------------------------------------- theorems

  ghost function UnresolvedRows(s: State): set<Id> {
    set id | id in s.rows && RowUnresolved(s.rows[id])
  }

  ghost function UnresolvedWithdrawals(s: State): set<Id> {
    set id | id in s.ops && OpUnresolved(s.ops[id])
  }

  lemma SingletonSet(ids: set<Id>, id: Id)
    requires forall x :: x in ids ==> x == id
    ensures |ids| <= 1
  {
    assert ids <= {id};
    assert ids == {} || ids == {id};
  }

  /** In every reachable state at most one wallet transaction is unresolved, rows and withdrawals together. */
  lemma AtMostOneUnresolved(cfg: Config, init: State, steps: seq<Step>, s: State)
    requires Init(init) && Run(cfg, init, steps, s)
    ensures |UnresolvedRows(s)| + |UnresolvedWithdrawals(s)| <= 1
  {
    RunKeepsWalletInv(cfg, init, steps, s);
    var rows, ops := UnresolvedRows(s), UnresolvedWithdrawals(s);
    if id :| id in rows {
      assert Unresolved(s.rows, s.ops, RowItem(id));
      forall x | x in rows ensures x == id { assert Unresolved(s.rows, s.ops, RowItem(x)); }
      SingletonSet(rows, id);
      forall x | x in ops ensures false { assert Unresolved(s.rows, s.ops, WithdrawalItem(x)); }
      assert ops == {};
    } else if id :| id in ops {
      assert rows == {};
      assert Unresolved(s.rows, s.ops, WithdrawalItem(id));
      forall x | x in ops ensures x == id { assert Unresolved(s.rows, s.ops, WithdrawalItem(x)); }
      SingletonSet(ops, id);
    } else {
      assert rows == {} && ops == {};
    }
  }

  /** The three segments that send a money-moving call. */
  predicate Submission(step: Step) {
    || (step.Opens? && step.o.SubmitOpen?)
    || (step.Closes? && step.c.SubmitClose?)
    || (step.Withdraws? && step.w.SubmitWithdrawal?)
  }

  lemma OpenCallsFrame(cfg: Config, s: State, step: OpenStep)
    requires CanOpen(s, step) && !step.SubmitOpen?
    ensures ApplyOpen(cfg, s, step).calls == s.calls
  {
  }

  lemma CloseCallsFrame(cfg: Config, s: State, step: CloseStep)
    requires CanClose(s, step) && !step.SubmitClose?
    ensures ApplyClose(cfg, s, step).calls == s.calls
  {
  }

  lemma TreasuryCallsFrame(s: State, step: TreasuryStep)
    requires CanWithdraw(s, step) && !step.SubmitWithdrawal?
    ensures ApplyTreasury(s, step).calls == s.calls
  {
  }

  lemma BorrowCallsFrame(cfg: Config, s: State, step: BorrowStep)
    requires CanBorrow(s, step)
    ensures ApplyBorrow(cfg, s, step).calls == s.calls
  {
    match step
    case PassAcquire(task, listing, giveUp) =>
      var Waiting(model, prewarm) := s.mem.borrowers[task];
      ScanFrame(s, task, model, prewarm, listing, giveUp);
    case VerifyAcquire(task, read, now, giveUp) => VerifyFrame(cfg, s, task, read, now, giveUp);
    case _ =>
  }

  lemma CallsFrame(cfg: Config, s: State, step: Step)
    requires Enabled(s, step) && !Submission(step)
    ensures Apply(cfg, s, step).calls == s.calls
  {
    match step
    case Opens(o) => OpenCallsFrame(cfg, s, o);
    case Closes(c) => CloseCallsFrame(cfg, s, c);
    case Withdraws(w) => TreasuryCallsFrame(s, w);
    case Borrows(b) => BorrowCallsFrame(cfg, s, b);
    case _ =>
  }

  lemma AtMostOneCall(cfg: Config, s: State, step: Step)
    requires Enabled(s, step)
    ensures var t := Apply(cfg, s, step);
            t.calls == s.calls || exists call :: t.calls == s.calls + [call]
  {
    if !Submission(step) {
      CallsFrame(cfg, s, step);
    }
  }

  lemma {:induction false} CallsGrow(cfg: Config, s: State, steps: seq<Step>, t: State)
    requires Run(cfg, s, steps, t)
    ensures s.calls <= t.calls
    decreases |steps|
  {
    if steps != [] {
      AtMostOneCall(cfg, s, steps[0]);
      CallsGrow(cfg, Apply(cfg, s, steps[0]), steps[1..], t);
    }
  }

  ghost predicate SendsAlone(s: State, call: Call, calls: seq<Call>) {
    && calls == s.calls + [call]
    && NothingBut(s, if call.CallClose? then Some(RowItem(call.id)) else None)
  }

  lemma OpenSubmitAlone(s: State, reply: Reply<Quote>, newId: Id, now: int)
    requires WalletInv(s) && s.lock.OpenQuoting?
    ensures var t := OpenSubmit(s, reply, newId, now);
            t.calls == s.calls || SendsAlone(s, CallOpen(newId, t.lock.row.stake), t.calls)
  {
  }

  lemma CloseReadAlone(cfg: Config, s: State, reply: Reply<Truth>, newOp: Id, now: int)
    requires WalletInv(s) && s.lock.CloseReading?
    ensures var t := CloseRead(cfg, s, reply, newOp, now);
            t.calls == s.calls || SendsAlone(s, CallClose(s.lock.row.id, newOp), t.calls)
  {
    assert ClearWallet(s, Some(s.lock.row.id)) ==> NothingBut(s, Some(RowItem(s.lock.row.id)));
  }

  lemma TreasurySubmitAlone(s: State, due: bool, newId: Id, now: int)
    requires WalletInv(s) && s.lock.TreasuryScanning? && s.lock.todo == []
    ensures var t := TreasurySubmit(s, due, newId, now);
            t.calls == s.calls || SendsAlone(s, CallWithdraw(newId), t.calls)
  {
  }

  lemma StepSubmitsAlone(cfg: Config, s: State, step: Step)
    requires WalletInv(s) && Enabled(s, step)
    ensures Apply(cfg, s, step).calls == s.calls
            || exists call :: SendsAlone(s, call, Apply(cfg, s, step).calls)
  {
    if !Submission(step) {
      CallsFrame(cfg, s, step);
    } else {
      match step
      case Opens(SubmitOpen(quoted, newId, now)) => OpenSubmitAlone(s, quoted, newId, now);
      case Closes(SubmitClose(read, newId, now)) => CloseReadAlone(cfg, s, read, newId, now);
      case Withdraws(SubmitWithdrawal(due, newId, now)) => TreasurySubmitAlone(s, due, newId, now);
    }
  }

  /** Whatever step sends a call, nothing else is unresolved at that instant; a close may concern its own row only. */
  lemma SubmitsAlone(cfg: Config, init: State, steps: seq<Step>, s: State, step: Step)
    requires Init(init) && Run(cfg, init, steps, s) && Enabled(s, step)
    ensures Apply(cfg, s, step).calls == s.calls
            || exists call :: SendsAlone(s, call, Apply(cfg, s, step).calls)
  {
    RunKeepsWalletInv(cfg, init, steps, s);
    StepSubmitsAlone(cfg, s, step);
  }

  /** Operation ids under which the node was called. */
  function CallId(call: Call): Id {
    match call
    case CallOpen(id, _) => id
    case CallClose(_, op) => op
    case CallWithdraw(id) => id
  }

  ghost predicate DistinctCalls(s: State) {
    forall i, j :: 0 <= i < j < |s.calls| ==> CallId(s.calls[i]) != CallId(s.calls[j])
  }

  lemma StepKeepsDistinctCalls(cfg: Config, s: State, step: Step)
    requires DistinctCalls(s) && Enabled(s, step)
    ensures DistinctCalls(Apply(cfg, s, step))
  {
    if !Submission(step) {
      CallsFrame(cfg, s, step);
    }
  }

  /** No operation id reaches the node twice, crashes included, so the node's exclusive journal file is never hit again. */
  lemma {:induction false} NeverSameOperationTwice(cfg: Config, s: State, steps: seq<Step>, t: State)
    requires DistinctCalls(s) && Run(cfg, s, steps, t)
    ensures DistinctCalls(t)
    decreases |steps|
  {
    if steps != [] {
      StepKeepsDistinctCalls(cfg, s, steps[0]);
      NeverSameOperationTwice(cfg, Apply(cfg, s, steps[0]), steps[1..], t);
    }
  }
}
