/**
 A withdrawal that was handed to the node is settled by evidence only, and not repeated before.

 It stays in `submitting`, `uncertain` or `pending`, through lost answers, cancellations, crashes and pruning,
 until its own answer, its completed journal or conclusive receipts decide it; until then nothing is sent.
 */
module WithdrawalOutcome {
  import opened Options
  import opened SessionRows
  import opened Protocol
  import opened WalletSafety

  /** Recorded as sent, and not as settled. */
  predicate Owed(ops: map<Id, Op>, id: Id) {
    && id in ops && ops[id].kind.Withdrawal?
    && (ops[id].state.Submitting? || ops[id].state.Uncertain? || ops[id].state.Pending?)
  }

  // ---------------------------------------------------------------- evidence

  /** Every transaction on record has a proper hash and was mined, one of them successfully or all of them reverted. */
  ghost predicate Conclusive(txs: seq<Tx>, receipts: Reply<seq<Receipt>>) {
    && txs != [] && (forall i :: 0 <= i < |txs| ==> txs[i].wellFormed)
    && receipts.Ok? && |receipts.value| == |txs|
    && ((exists i :: 0 <= i < |txs| && receipts.value[i] == Some(true))
        || (forall i :: 0 <= i < |txs| ==> receipts.value[i] == Some(false)))
  }

  /** A finished request that was answered with 200, or that submitted nothing. */
  predicate Settling(progress: Progress) {
    progress.completed && (progress.httpStatus == 200 || progress.stage.StageNotSubmitted?)
  }

  ghost predicate Decides(s: State, step: Step, id: Id) {
    match step
    case Withdraws(ReplyWithdrawal(withdrawn)) =>
      && s.lock.WithdrawSubmitted? && s.lock.op.id == id
      && ((withdrawn.Ok? && withdrawn.value.Some?) || (withdrawn.Err? && withdrawn.failure.outcome.NotSubmitted?))
    case Withdraws(ResolveWithdrawal(progress, receipts)) =>
      && s.lock.TreasuryScanning? && s.lock.todo != [] && s.lock.todo[0] == id && id in s.ops
      && (|| (progress.Some? && Settling(progress.value))
          || Conclusive(if progress.Some? then progress.value.transactions else s.ops[id].transactions, receipts))
    case _ => false
  }

  // ---------------------------------------------------------------- operations in hand

  /** The restart under way has a running restart operation of its own. */
  predicate RestartOwn(s: State) {
    !s.mem.restart.NoRestart? ==>
      var op := s.mem.restart.op; op in s.ops && s.ops[op].kind.NodeRestart? && !Ended(s.ops[op])
  }

  /** What the treasury has in hand are withdrawals that the store shows as owed. */
  ghost predicate InHand(s: State) {
    match s.lock
    case WithdrawSubmitted(op) => op.kind.Withdrawal? && Owed(s.ops, op.id)
    case TreasuryScanning(todo) =>
      && (forall i :: 0 <= i < |todo| ==> Owed(s.ops, todo[i]))
      && (forall i, j :: 0 <= i < j < |todo| ==> todo[i] != todo[j])
    case _ => true
  }

  ghost predicate OpsInv(s: State) {
    WalletInv(s) && RestartOwn(s) && InHand(s)
  }

  /** Steps that do not touch operations or the treasury's hand. */
  ghost predicate OpsKept(s: State, t: State) {
    && t.ops == s.ops && t.mem.restart == s.mem.restart
    && (t.lock == s.lock || !(t.lock.WithdrawSubmitted? || t.lock.TreasuryScanning?))
  }

  lemma OpenFrame(cfg: Config, s: State, step: OpenStep)
    requires CanOpen(s, step)
    ensures OpsKept(s, ApplyOpen(cfg, s, step))
  {
  }

  lemma CloseFrame(cfg: Config, s: State, step: CloseStep)
    requires CanClose(s, step)
    ensures OpsKept(s, ApplyClose(cfg, s, step))
  {
  }

  lemma ReconcileFrame(cfg: Config, s: State, step: ReconcileStep)
    ensures OpsKept(s, ApplyReconcile(cfg, s, step))
  {
  }

  lemma BorrowFrame(cfg: Config, s: State, step: BorrowStep)
    requires CanBorrow(s, step)
    ensures OpsKept(s, ApplyBorrow(cfg, s, step))
  {
    match step
    case PassAcquire(task, listing, giveUp) =>
      var Waiting(model, prewarm) := s.mem.borrowers[task];
      ScanFrame(s, task, model, prewarm, listing, giveUp);
    case VerifyAcquire(task, read, now, giveUp) => VerifyFrame(cfg, s, task, read, now, giveUp);
    case _ =>
  }

  // ---------------------------------------------------------------- one step

  /** The withdrawal is settled exactly on evidence. */
  ghost predicate SettledIff(cfg: Config, s: State, step: Step, id: Id)
    requires Enabled(s, step)
  {
    Decides(s, step, id) <==> !Owed(Apply(cfg, s, step).ops, id)
  }

  lemma ResolveSettles(cfg: Config, s: State, progress: Option<Progress>, receipts: Reply<seq<Receipt>>, id: Id)
    requires OpsInv(s) && Owed(s.ops, id) && CanWithdraw(s, ResolveWithdrawal(progress, receipts))
    ensures SettledIff(cfg, s, Withdraws(ResolveWithdrawal(progress, receipts)), id)
  {
  }

  lemma TreasurySettles(cfg: Config, s: State, step: TreasuryStep, id: Id)
    requires OpsInv(s) && Owed(s.ops, id) && CanWithdraw(s, step)
    ensures SettledIff(cfg, s, Withdraws(step), id)
  {
    match step
    case ResolveWithdrawal(progress, receipts) => ResolveSettles(cfg, s, progress, receipts, id);
    case _ =>
  }

  lemma UpkeepSettles(cfg: Config, s: State, step: UpkeepStep, id: Id)
    requires OpsInv(s) && Owed(s.ops, id)
    ensures SettledIff(cfg, s, Tends(step), id)
  {
  }

  lemma RestartSettles(cfg: Config, s: State, step: RestartStep, id: Id)
    requires OpsInv(s) && Owed(s.ops, id) && CanRestart(s, step)
    ensures SettledIff(cfg, s, Restarts(step), id)
  {
  }

  lemma LeavesIffDecided(cfg: Config, s: State, step: Step, id: Id)
    requires OpsInv(s) && Owed(s.ops, id) && Enabled(s, step)
    ensures SettledIff(cfg, s, step, id)
  {
    match step
    case Opens(o) => OpenFrame(cfg, s, o);
    case Closes(c) => CloseFrame(cfg, s, c);
    case Withdraws(w) => TreasurySettles(cfg, s, w, id);
    case Reconciles(r) => ReconcileFrame(cfg, s, r);
    case Borrows(b) => BorrowFrame(cfg, s, b);
    case Tends(u) => UpkeepSettles(cfg, s, u, id);
    case Restarts(x) => RestartSettles(cfg, s, x, id);
  }

  /** The evidence says that the withdrawal went through. */
  ghost predicate Confirms(s: State, step: Step) {
    match step
    case Withdraws(ReplyWithdrawal(withdrawn)) => withdrawn.Ok?
    case Withdraws(ResolveWithdrawal(progress, receipts)) =>
      || (progress.Some? && progress.value.completed && progress.value.httpStatus == 200)
      || (&& !(progress.Some? && Settling(progress.value))
          && receipts.Ok? && exists i :: 0 <= i < |receipts.value| && receipts.value[i] == Some(true))
    case _ => false
  }

  /** How it is settled: as succeeded if the evidence says so, and else as failed. */
  lemma SettledAs(cfg: Config, s: State, step: Step, id: Id)
    requires OpsInv(s) && Owed(s.ops, id) && Enabled(s, step) && Decides(s, step, id)
    ensures var t := Apply(cfg, s, step);
            id in t.ops && t.ops[id].state == if Confirms(s, step) then Succeeded else OpFailed
  {
  }

  /** While a withdrawal is owed, a step that does not decide it sends nothing. */
  lemma NothingSent(cfg: Config, s: State, step: Step, id: Id)
    requires OpsInv(s) && Owed(s.ops, id) && Enabled(s, step)
    ensures Apply(cfg, s, step).calls == s.calls
  {
    assert Unresolved(s.rows, s.ops, WithdrawalItem(id));
    if !Submission(step) {
      CallsFrame(cfg, s, step);
    }
  }

  /**
   A withdrawal is stored and sent if and only if one is due, every earlier one is settled and no session row is
   being opened or closed; the treasury comes that far only if the node's identity was confirmed.
   */
  lemma SendsIff(s: State, due: bool, newId: Id, now: int)
    requires OpsInv(s) && s.lock.TreasuryScanning? && s.lock.todo == []
    ensures forall id :: !Owed(s.ops, id)
    ensures var t := TreasurySubmit(s, due, newId, now);
            if due && forall id :: id in s.rows ==>
                 !(s.rows[id].state.Opening? || s.rows[id].state.OpenUnknown? || s.rows[id].state.Closing? || s.rows[id].state.ClosePending?)
            then
              && t.calls == s.calls + [CallWithdraw(newId)]
              && newId in t.ops && t.ops[newId] == Op(newId, Withdrawal, Submitting, now, [])
              && t.lock == WithdrawSubmitted(t.ops[newId])
            else t == s.(lock := Free)
  {
    forall id ensures !Owed(s.ops, id) {
      assert !Unresolved(s.rows, s.ops, WithdrawalItem(id));
    }
  }

  lemma ScansIff(s: State, checked: Reply<()>, todo: seq<Id>)
    requires s.lock.TreasuryChecking?
    ensures var t := TreasuryList(s, checked, todo);
            t == s.(lock := if checked.Ok? then TreasuryScanning(todo) else Free)
  {
  }

  // ---------------------------------------------------------------- the invariant

  lemma TreasuryKeepsHand(s: State, step: TreasuryStep)
    requires OpsInv(s) && CanWithdraw(s, step)
    ensures RestartOwn(ApplyTreasury(s, step)) && InHand(ApplyTreasury(s, step))
  {
  }

  lemma RestartKeepsHand(s: State, step: RestartStep)
    requires OpsInv(s) && CanRestart(s, step)
    ensures RestartOwn(ApplyRestart(s, step)) && InHand(ApplyRestart(s, step))
  {
  }

  lemma UpkeepKeepsHand(s: State, step: UpkeepStep)
    requires OpsInv(s)
    ensures RestartOwn(ApplyUpkeep(s, step)) && InHand(ApplyUpkeep(s, step))
  {
  }

  lemma StepKeepsOpsInv(cfg: Config, s: State, step: Step)
    requires OpsInv(s) && Enabled(s, step)
    ensures OpsInv(Apply(cfg, s, step))
  {
    StepKeepsWalletInv(cfg, s, step);
    hide WalletInv;
    match step
    case Opens(o) => OpenFrame(cfg, s, o);
    case Closes(c) => CloseFrame(cfg, s, c);
    case Withdraws(w) => TreasuryKeepsHand(s, w);
    case Reconciles(r) => ReconcileFrame(cfg, s, r);
    case Borrows(b) => BorrowFrame(cfg, s, b);
    case Tends(u) => UpkeepKeepsHand(s, u);
    case Restarts(x) => RestartKeepsHand(s, x);
  }

  lemma {:induction false} RunKeepsOpsInv(cfg: Config, s: State, steps: seq<Step>, t: State)
    requires OpsInv(s) && Run(cfg, s, steps, t)
    ensures OpsInv(t)
    decreases |steps|
  {
    if steps != [] {
      StepKeepsOpsInv(cfg, s, steps[0]);
      RunKeepsOpsInv(cfg, Apply(cfg, s, steps[0]), steps[1..], t);
    }
  }

  // ---------------------------------------------------------------- whole runs

  ghost predicate NothingDecides(cfg: Config, s: State, steps: seq<Step>, id: Id)
    decreases |steps|
  {
    steps != [] && Enabled(s, steps[0]) ==>
      !Decides(s, steps[0], id) && NothingDecides(cfg, Apply(cfg, s, steps[0]), steps[1..], id)
  }

  /** From any reachable state: without evidence the withdrawal stays owed and nothing at all is sent. */
  lemma {:induction false} NothingSentWhileOwed(cfg: Config, s: State, steps: seq<Step>, t: State, id: Id)
    requires OpsInv(s) && Owed(s.ops, id) && Run(cfg, s, steps, t) && NothingDecides(cfg, s, steps, id)
    ensures Owed(t.ops, id) && t.calls == s.calls
    decreases |steps|
  {
    if steps != [] {
      LeavesIffDecided(cfg, s, steps[0], id);
      NothingSent(cfg, s, steps[0], id);
      StepKeepsOpsInv(cfg, s, steps[0]);
      NothingSentWhileOwed(cfg, Apply(cfg, s, steps[0]), steps[1..], t, id);
    }
  }

  /** A step that sends a withdrawal leaves it owed. */
  lemma SendingStarts(cfg: Config, s: State, step: Step, id: Id)
    requires Enabled(s, step) && Apply(cfg, s, step).calls == s.calls + [CallWithdraw(id)]
    ensures Owed(Apply(cfg, s, step).ops, id)
  {
    var call := CallWithdraw(id);
    assert (s.calls + [call])[|s.calls|] == call;
    if !Submission(step) {
      CallsFrame(cfg, s, step);
    } else {
      var calls := Apply(cfg, s, step).calls;
      assert calls[|calls| - 1] == call;
    }
  }

  /** Evidence about withdrawal `id` arrives after call `i` was sent and before the next call is. */
  ghost predicate DecidedAfter(cfg: Config, s: State, steps: seq<Step>, id: Id, i: nat)
    decreases |steps|
  {
    steps != [] && Enabled(s, steps[0]) &&
    ((|s.calls| == i + 1 && Decides(s, steps[0], id))
     || DecidedAfter(cfg, Apply(cfg, s, steps[0]), steps[1..], id, i))
  }

  lemma {:induction false} OwedUntil(cfg: Config, s: State, steps: seq<Step>, t: State, id: Id, i: nat)
    requires OpsInv(s) && Owed(s.ops, id) && Run(cfg, s, steps, t) && |s.calls| == i + 1 < |t.calls|
    ensures DecidedAfter(cfg, s, steps, id, i)
    decreases |steps|
  {
    if !Decides(s, steps[0], id) {
      LeavesIffDecided(cfg, s, steps[0], id);
      NothingSent(cfg, s, steps[0], id);
      StepKeepsOpsInv(cfg, s, steps[0]);
      OwedUntil(cfg, Apply(cfg, s, steps[0]), steps[1..], t, id, i);
    }
  }

  /**
   In every run, whatever is sent after a withdrawal, a second withdrawal included, is sent after evidence about
   that withdrawal.
   */
  lemma {:induction false} NothingFollowsUndecided(cfg: Config, s: State, steps: seq<Step>, t: State, id: Id, i: nat)
    requires OpsInv(s) && Run(cfg, s, steps, t) && |s.calls| <= i < |t.calls| - 1 && t.calls[i] == CallWithdraw(id)
    ensures DecidedAfter(cfg, s, steps, id, i)
    decreases |steps|
  {
    var s1 := Apply(cfg, s, steps[0]);
    AtMostOneCall(cfg, s, steps[0]);
    CallsGrow(cfg, s1, steps[1..], t);
    StepKeepsOpsInv(cfg, s, steps[0]);
    if |s1.calls| <= i {
      NothingFollowsUndecided(cfg, s1, steps[1..], t, id, i);
    } else {
      assert s1.calls == s.calls + [CallWithdraw(id)];
      SendingStarts(cfg, s, steps[0], id);
      OwedUntil(cfg, s1, steps[1..], t, id, i);
    }
  }

  /** Both laws hold from the start: an empty store meets the invariant, and so does every state of a run. */
  lemma Reachable(cfg: Config, init: State, steps: seq<Step>, s: State)
    requires Init(init) && Run(cfg, init, steps, s)
    ensures OpsInv(s)
  {
    RunKeepsOpsInv(cfg, init, steps, s);
  }
}
