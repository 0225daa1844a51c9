/**
 What happens to a row whose submission ended without a known outcome.

 Such a row leaves `open_unknown` or `close_pending` only on evidence, and until then the gateway sends no
 money-moving call at all.  The one hole is a borrower that listed the row while it was still open.
 */
module UncertainOutcome {
  import opened Options
  import opened SessionRows
  import opened Protocol
  import opened WalletSafety
  import opened Leases

  /** The submitting call has ended: no task holding the lock will write the row from its own copy. */
  predicate NotInHand(lock: Holder, id: Id, state: SessionState) {
    match lock
    case OpenSubmitted(_, _, row) => row.id != id
    case OpenConfirming(_, _, row) => row.id != id
    case CloseReading(row) => row.id == id ==> row.state == state && state.OpenUnknown?
    case CloseSubmitted(row) => row.id != id
    case CloseConfirming(row) => row.id != id
    case _ => true
  }

  /** A listed copy that a scan for `model` would reserve. */
  predicate UsableCopy(rest: seq<Row>, i: int, model: Id, id: Id) {
    0 <= i < |rest| && rest[i].id == id && rest[i].model == model && rest[i].state.Open?
  }

  /**
   A borrower that is verifying the row or will come to a copy of it listed as open; for an uncertain
   opening, also one that leases it.
   */
  ghost predicate Remembers(b: Borrower, id: Id, state: SessionState) {
    match b
    case Waiting(_, _) => false
    case Verifying(model, _, row, rest) => row.id == id || exists i :: UsableCopy(rest, i, model, id)
    case Leased(x) => x == id && state.OpenUnknown?
  }

  ghost predicate NotBorrowed(s: State, id: Id, state: SessionState) {
    forall t :: t in s.mem.borrowers ==> !Remembers(s.mem.borrowers[t], id, state)
  }

  /** The submission ended without a known outcome. */
  ghost predicate Undetermined(s: State, id: Id, state: SessionState) {
    && (state.OpenUnknown? || state.ClosePending?)
    && id in s.rows && s.rows[id].state == state
    && NotInHand(s.lock, id, state)
  }

  ghost predicate Stuck(s: State, id: Id, state: SessionState) {
    Undetermined(s, id, state) && NotBorrowed(s, id, state)
  }

  /** The chain's answer names this very session of this wallet. */
  predicate About(cfg: Config, row: Row, truth: Truth) {
    && truth.user == cfg.wallet && Some(truth.id) == row.chainId
    && truth.model == row.model && truth.provider == row.provider && truth.bid == row.bid
    && truth.endsAt >= 0 && truth.closedAt >= 0 && truth.stake >= 0 && truth.openedAt >= 0
  }

  /** Every listed close transaction has a proper hash and was mined and reverted. */
  predicate AllReverted(txs: seq<Tx>, receipts: Reply<seq<Receipt>>) {
    && txs != [] && (forall i :: 0 <= i < |txs| ==> txs[i].wellFormed)
    && receipts.Ok? && |receipts.value| == |txs|
    && forall i :: 0 <= i < |txs| ==> receipts.value[i] == Some(false)
  }

  /** The close transactions on record: those the journal or an error listed, or else the one the node answered with. */
  predicate Lists(row: Row, txs: seq<Tx>) {
    txs == row.closeTransactions != [] || (row.closeTransactions == [] && row.closeTx.Some? && txs == [row.closeTx.value])
  }

  /** Chain answers, a completed journal, reverted receipts, or a verified bind that decide the row. */
  ghost predicate ReconcileEvidence(cfg: Config, s: State, step: ReconcileStep, id: Id) {
    id in s.rows &&
    var row := s.rows[id];
    match step
    case FromJournal(snapshot, progress, _) =>
      && snapshot == row
      && progress.Some? && progress.value.completed && progress.value.stage.StageNotSubmitted?
      && (row.state.OpenUnknown? ==> progress.value.sessionId.None?)
    case FromTruth(snapshot, read, receipts, _) =>
      && snapshot == row
      && read.Ok? && ValidTruth(cfg.wallet, row, read.value)
      && (read.value.closedAt != 0 || row.state.OpenUnknown? || CloseTxState(row, receipts).TxFailed?)
    case FromReceipts(x, receipts, _) =>
      && x == id && row.state.OpenUnknown? && row.chainId.None?
      && var txs := OpenTxs(row.transactions);
         txs != [] && receipts.Ok? && |receipts.value| == |txs| && TransactionState(txs, receipts.value).TxFailed?
    case BindSession(x, chainId, truth) => x == id && BindAllowed(cfg, s, id, chainId, truth)
    case _ => false
  }

  ghost predicate Evidence(cfg: Config, s: State, step: Step, id: Id) {
    match step
    case Reconciles(r) => ReconcileEvidence(cfg, s, r, id)
    // close() of an opening whose session id is known, after the chain confirmed that session
    case Closes(SubmitClose(read, _, _)) =>
      s.lock.CloseReading? && s.lock.row.id == id && read.Ok? && ValidTruth(cfg.wallet, s.lock.row, read.value)
    case _ => false
  }

  /** The row has left the uncertain state. */
  predicate Left(t: State, id: Id, state: SessionState) {
    id !in t.rows || t.rows[id].state != state
  }

  lemma ReconcileIff(cfg: Config, s: State, step: ReconcileStep, id: Id, state: SessionState)
    requires Keyed(s) && Stuck(s, id, state)
    ensures var t := ApplyReconcile(cfg, s, step);
            && (Left(t, id, state) <==> ReconcileEvidence(cfg, s, step, id))
            && t.lock == s.lock && t.mem == s.mem && t.calls == s.calls
  {
  }

  lemma OpenHolds(cfg: Config, s: State, step: OpenStep, id: Id, state: SessionState)
    requires WalletInv(s) && Stuck(s, id, state) && CanOpen(s, step)
    ensures Stuck(ApplyOpen(cfg, s, step), id, state) && ApplyOpen(cfg, s, step).calls == s.calls
  {
    assert Unresolved(s.rows, s.ops, RowItem(id));
    OpenFrame(cfg, s, step);
  }

  ghost predicate CloseHeld(cfg: Config, s: State, step: CloseStep, id: Id, state: SessionState)
    requires CanClose(s, step)
  {
    var t := ApplyClose(cfg, s, step);
    && (Left(t, id, state) <==> Evidence(cfg, s, Closes(step), id))
    && (!Evidence(cfg, s, Closes(step), id) ==> Stuck(t, id, state) && t.calls == s.calls)
  }

  lemma CloseCheckHolds(cfg: Config, s: State, checked: Reply<()>, now: int, id: Id, state: SessionState)
    requires Leasing(s) && WalletInv(s) && Stuck(s, id, state) && CanClose(s, CheckClose(checked, now))
    ensures CloseHeld(cfg, s, CheckClose(checked, now), id, state)
  {
    if state.OpenUnknown? && id in s.mem.active {
      var task :| OwnedBy(s.mem.borrowers, id, task);
      assert Remembers(s.mem.borrowers[task], id, state);
    }
  }

  /** The guard of a close lets exactly the stuck row itself through. */
  lemma GuardOfStuck(s: State, id: Id, other: Id)
    requires WalletInv(s) && id in s.rows && RowUnresolved(s.rows[id])
    ensures ClearWallet(s, Some(other)) <==> other == id
  {
    assert Unresolved(s.rows, s.ops, RowItem(id));
    if other == id {
      forall x | x in s.rows && x != id ensures !RowUnresolved(s.rows[x]) {
        assert !Unresolved(s.rows, s.ops, RowItem(x));
      }
      forall x | x in s.ops ensures !OpUnresolved(s.ops[x]) {
        assert !Unresolved(s.rows, s.ops, WithdrawalItem(x));
      }
    }
  }

  lemma CloseSubmitHolds(cfg: Config, s: State, read: Reply<Truth>, newId: Id, now: int, id: Id, state: SessionState)
    requires WalletInv(s) && Stuck(s, id, state) && CanClose(s, SubmitClose(read, newId, now))
    ensures CloseHeld(cfg, s, SubmitClose(read, newId, now), id, state)
  {
    GuardOfStuck(s, id, s.lock.row.id);
    hide WalletInv;
  }

  lemma CloseHolds(cfg: Config, s: State, step: CloseStep, id: Id, state: SessionState)
    requires WalletInv(s) && Leasing(s) && Stuck(s, id, state) && CanClose(s, step)
    ensures CloseHeld(cfg, s, step, id, state)
  {
    match step
    case CheckClose(checked, now) => CloseCheckHolds(cfg, s, checked, now, id, state);
    case SubmitClose(read, newId, now) => CloseSubmitHolds(cfg, s, read, newId, now, id, state);
    case BeginClose(_) =>
    case ReplyClose(_, _) =>
    case ConfirmClose(_, _) =>
  }

  lemma TreasuryHolds(s: State, step: TreasuryStep, id: Id, state: SessionState)
    requires WalletInv(s) && Stuck(s, id, state) && CanWithdraw(s, step)
    ensures Stuck(ApplyTreasury(s, step), id, state) && ApplyTreasury(s, step).calls == s.calls
  {
    assert Unresolved(s.rows, s.ops, RowItem(id));
    TreasuryFrame(s, step);
  }

  /** A scan can only pick up copies it already carries. */
  lemma {:induction false} ScanForgets(s: State, task: Id, model: Id, prewarm: bool, rest: seq<Row>, giveUp: bool,
                                       id: Id, state: SessionState)
    requires forall t :: t in s.mem.borrowers && t != task ==> !Remembers(s.mem.borrowers[t], id, state)
    requires forall i :: !UsableCopy(rest, i, model, id)
    ensures NotBorrowed(Scan(s, task, model, prewarm, rest, giveUp), id, state)
    decreases |rest|
  {
    if rest != [] {
      assert !UsableCopy(rest, 0, model, id);
      forall i ensures !UsableCopy(rest[1..], i, model, id) {
        assert !UsableCopy(rest, i + 1, model, id);
      }
      if !(rest[0].model == model && rest[0].state.Open? && rest[0].id !in s.mem.active) {
        ScanForgets(s, task, model, prewarm, rest[1..], giveUp, id, state);
      }
    }
  }

  lemma BorrowHolds(cfg: Config, s: State, step: BorrowStep, id: Id, state: SessionState)
    requires Keyed(s) && Stuck(s, id, state) && CanBorrow(s, step)
    ensures Stuck(ApplyBorrow(cfg, s, step), id, state) && ApplyBorrow(cfg, s, step).calls == s.calls
  {
    BorrowCallsFrame(cfg, s, step);
    BorrowFrame(cfg, s, step);
    match step
    case BeginAcquire(_, _, _) =>
    case PassAcquire(task, listing, giveUp) =>
      var Waiting(model, prewarm) := s.mem.borrowers[task];
      ScanForgets(s, task, model, prewarm, listing, giveUp, id, state);
      ScanFrame(s, task, model, prewarm, listing, giveUp);
    case VerifyAcquire(task, read, now, giveUp) => VerifyHolds(cfg, s, task, read, now, giveUp, id, state);
    case AbandonAcquire(_) =>
    case ReleaseLease(_, _) =>
    case InvalidateLease(_) =>
  }

  lemma VerifyHolds(cfg: Config, s: State, task: Id, read: Reply<Truth>, now: int, giveUp: bool,
                    id: Id, state: SessionState)
    requires Keyed(s) && Stuck(s, id, state) && task in s.mem.borrowers && s.mem.borrowers[task].Verifying?
    ensures Stuck(AcquireVerify(cfg, s, task, read, now, giveUp), id, state)
  {
    assert !Remembers(s.mem.borrowers[task], id, state);
    VerifyFrame(cfg, s, task, read, now, giveUp);
    var Verifying(model, prewarm, row, rest) := s.mem.borrowers[task];
    var dropped := s.(mem := s.mem.(active := s.mem.active - {row.id}));
    match Judge(cfg, s, model, row, read, now)
    case Quit =>
    case Skip(None) => ScanForgets(dropped, task, model, prewarm, rest, giveUp, id, state);
    case Skip(Some(write)) => ScanForgets(PutRow(dropped, write), task, model, prewarm, rest, giveUp, id, state);
    case Grant(_) =>
  }

  lemma UpkeepHolds(s: State, step: UpkeepStep, id: Id, state: SessionState)
    requires Keyed(s) && Stuck(s, id, state)
    ensures Stuck(ApplyUpkeep(s, step), id, state) && ApplyUpkeep(s, step).calls == s.calls
  {
  }

  lemma RestartHolds(s: State, step: RestartStep, id: Id, state: SessionState)
    requires Keyed(s) && Stuck(s, id, state) && CanRestart(s, step)
    ensures Stuck(ApplyRestart(s, step), id, state) && ApplyRestart(s, step).calls == s.calls
  {
  }

  /** One step: the row leaves its state exactly on evidence, and without it nothing is sent to the node. */
  lemma LeavesIffEvidence(cfg: Config, s: State, step: Step, id: Id, state: SessionState)
    requires Inv(s) && Stuck(s, id, state) && Enabled(s, step)
    ensures var t := Apply(cfg, s, step);
            && (Left(t, id, state) <==> Evidence(cfg, s, step, id))
            && (!Evidence(cfg, s, step, id) ==> Stuck(t, id, state) && t.calls == s.calls)
  {
    match step
    case Opens(o) => OpenHolds(cfg, s, o, id, state);
    case Closes(c) => CloseHolds(cfg, s, c, id, state);
    case Withdraws(w) => TreasuryHolds(s, w, id, state);
    case Reconciles(r) => ReconcileIff(cfg, s, r, id, state);
    case Borrows(b) => BorrowHolds(cfg, s, b, id, state);
    case Tends(u) => UpkeepHolds(s, u, id, state);
    case Restarts(x) => RestartHolds(s, x, id, state);
  }

  /** A run in which no step decides the row. */
  ghost predicate Undecided(cfg: Config, s: State, steps: seq<Step>, id: Id)
    decreases |steps|
  {
    steps != [] ==>
      Enabled(s, steps[0]) && !Evidence(cfg, s, steps[0], id)
      && Undecided(cfg, Apply(cfg, s, steps[0]), steps[1..], id)
  }

  /**
   Whole runs: while nothing decides the row it stays as it is, and no close, open or withdrawal is sent,
   whatever close requests, ticks, restarts and crashes happen.
   */
  lemma {:induction false} NothingSentWhileUndecided(cfg: Config, s: State, steps: seq<Step>, t: State,
                                                     id: Id, state: SessionState)
    requires Inv(s) && Stuck(s, id, state) && Run(cfg, s, steps, t) && Undecided(cfg, s, steps, id)
    ensures Stuck(t, id, state) && t.calls == s.calls
    decreases |steps|
  {
    if steps != [] {
      LeavesIffEvidence(cfg, s, steps[0], id, state);
      StepKeepsInv(cfg, s, steps[0]);
      NothingSentWhileUndecided(cfg, Apply(cfg, s, steps[0]), steps[1..], t, id, state);
    }
  }

  // ---------------------------------------------------------------- the condition is exact

  const LOST_READ: Reply<Truth> := Err(Failure(OtherCode, UnknownOutcome, []))

  /** The scan stops at or before a copy it may reserve. */
  lemma {:induction false} ScanReaches(s: State, task: Id, model: Id, prewarm: bool, rest: seq<Row>, i: nat) returns (j: nat)
    requires i < |rest| && UsableCopy(rest, i, model, rest[i].id) && rest[i].id !in s.mem.active
    ensures j <= i
    ensures var t := Scan(s, task, model, prewarm, rest, false);
            && t.rows == s.rows
            && t.mem == s.mem.(active := s.mem.active + {rest[j].id},
                               borrowers := s.mem.borrowers[task := Verifying(model, prewarm, rest[j], rest[j + 1..])])
    decreases |rest|
  {
    if rest[0].model == model && rest[0].state.Open? && rest[0].id !in s.mem.active {
      j := 0;
    } else {
      var k := ScanReaches(s, task, model, prewarm, rest[1..], i - 1);
      j := k + 1;
      assert rest[1..][k + 1..] == rest[j + 1..];
    }
  }

  /** A verification that loses its read quarantines the row from the borrower's copy, whatever it has become. */
  lemma QuarantineOverwrites(cfg: Config, s: State, task: Id, id: Id, state: SessionState)
    requires Inv(s) && Undetermined(s, id, state)
    requires task in s.mem.borrowers && s.mem.borrowers[task].Verifying? && s.mem.borrowers[task].row.id == id
    ensures Left(AcquireVerify(cfg, s, task, LOST_READ, 0, false), id, state)
  {
    VerifyFrame(cfg, s, task, LOST_READ, 0, false);
  }

  /** A run without evidence after which the row has left its uncertain state. */
  ghost predicate Escapes(cfg: Config, s: State, steps: seq<Step>, id: Id, state: SessionState)
    decreases |steps|
  {
    if steps == [] then Left(s, id, state)
    else
      && Enabled(s, steps[0]) && !Evidence(cfg, s, steps[0], id)
      && Escapes(cfg, Apply(cfg, s, steps[0]), steps[1..], id, state)
  }

  lemma EscapeStep(cfg: Config, s: State, step: Step, steps: seq<Step>, id: Id, state: SessionState)
    requires Enabled(s, step) && !Evidence(cfg, s, step, id) && Escapes(cfg, Apply(cfg, s, step), steps, id, state)
    ensures Escapes(cfg, s, [step] + steps, id, state)
  {
    assert ([step] + steps)[1..] == steps;
  }

  /** A borrower scanning towards an old copy of the row gets there by losing reads. */
  lemma {:induction false} ScanEscapes(cfg: Config, s: State, task: Id, id: Id, state: SessionState) returns (steps: seq<Step>)
    requires Inv(s) && Undetermined(s, id, state)
    requires task in s.mem.borrowers && s.mem.borrowers[task].Verifying? && Remembers(s.mem.borrowers[task], id, state)
    requires s.mem.borrowers[task].row.id == id || id !in s.mem.active
    ensures Escapes(cfg, s, steps, id, state)
    decreases |s.mem.borrowers[task].rest|
  {
    hide Inv;
    hide Scan;
    var Verifying(model, prewarm, row, rest) := s.mem.borrowers[task];
    var step := Borrows(VerifyAcquire(task, LOST_READ, 0, false));
    var t := Apply(cfg, s, step);
    StepKeepsInv(cfg, s, step);
    if row.id == id {
      QuarantineOverwrites(cfg, s, task, id, state);
      EscapeStep(cfg, s, step, [], id, state);
      steps := [step];
    } else {
      var i :| UsableCopy(rest, i, model, id);
      var write := MarkError(row.(state := Quarantined), 0);
      var dropped := PutRow(s.(mem := s.mem.(active := s.mem.active - {row.id})), write);
      var j := ScanReaches(dropped, task, model, prewarm, rest, i);
      VerifyFrame(cfg, s, task, LOST_READ, 0, false);
      if rest[j].id != id {
        assert UsableCopy(rest[j + 1..], i - j - 1, model, id);
      }
      var more := ScanEscapes(cfg, t, task, id, state);
      EscapeStep(cfg, s, step, more, id, state);
      steps := [step] + more;
    }
  }

  /**
   The converse of `NothingSentWhileUndecided`: if some borrower remembers the row, a run without any
   evidence takes it out of its uncertain state.
   */
  lemma RememberedRowEscapes(cfg: Config, s: State, task: Id, id: Id, state: SessionState) returns (steps: seq<Step>)
    requires Inv(s) && Undetermined(s, id, state)
    requires task in s.mem.borrowers && Remembers(s.mem.borrowers[task], id, state)
    ensures Escapes(cfg, s, steps, id, state)
  {
    if s.mem.borrowers[task].Leased? {
      var step := Borrows(InvalidateLease(task));
      EscapeStep(cfg, s, step, [], id, state);
      steps := [step];
    } else if s.mem.borrowers[task].row.id == id || id !in s.mem.active {
      steps := ScanEscapes(cfg, s, task, id, state);
    } else {
      var owner :| OwnedBy(s.mem.borrowers, id, owner);
      if s.mem.borrowers[owner].Verifying? {
        steps := ScanEscapes(cfg, s, owner, id, state);
      } else {
        steps := ReleasedEscapes(cfg, s, owner, task, id, state);
      }
    }
  }

  /** A lease in the way is given back first. */
  lemma ReleasedEscapes(cfg: Config, s: State, owner: Id, task: Id, id: Id, state: SessionState) returns (steps: seq<Step>)
    requires Inv(s) && Undetermined(s, id, state) && OwnedBy(s.mem.borrowers, id, owner) && s.mem.borrowers[owner].Leased?
    requires task in s.mem.borrowers && s.mem.borrowers[task].Verifying? && Remembers(s.mem.borrowers[task], id, state)
    ensures Escapes(cfg, s, steps, id, state)
  {
    var step := Borrows(ReleaseLease(owner, 0));
    StepKeepsInv(cfg, s, step);
    hide Inv;
    var more := ScanEscapes(cfg, Apply(cfg, s, step), task, id, state);
    EscapeStep(cfg, s, step, more, id, state);
    steps := [step] + more;
  }

  // ---------------------------------------------------------------- runs in sequence

  lemma {:induction false} RunConcat(cfg: Config, s: State, first: seq<Step>, t: State, second: seq<Step>, u: State)
    requires Run(cfg, s, first, t) && Run(cfg, t, second, u)
    ensures Run(cfg, s, first + second, u)
    decreases |first|
  {
    if first == [] {
      assert first + second == second;
    } else {
      assert (first + second)[1..] == first[1..] + second;
      RunConcat(cfg, Apply(cfg, s, first[0]), first[1..], t, second, u);
    }
  }
}
