/**
 A close that was handed to the node is not repeated without a reason.

 The law starts at the submission: from then on the session row stays in `closing` or `close_pending`, through
 lost answers, cancellations, crashes and every other task, until one of the listed steps decides it.
 */
module CloseOutcome {
  import opened Options
  import opened SessionRows
  import opened Protocol
  import opened WalletSafety
  import opened UncertainOutcome
  import opened StaleBorrower

  /** The node's own answers to the lock holder: not submitted, or the chain shows the session as closed. */
  ghost predicate AnswerDecides(cfg: Config, s: State, step: CloseStep, id: Id) {
    match step
    case ReplyClose(closed, _) =>
      s.lock.CloseSubmitted? && s.lock.row.id == id && closed.Err? && closed.failure.outcome.NotSubmitted?
    case ConfirmClose(read, _) =>
      && s.lock.CloseConfirming? && s.lock.row.id == id
      && ((read.Err? && read.failure.outcome.NotSubmitted?)
          || (read.Ok? && About(cfg, s.lock.row, read.value) && read.value.closedAt != 0))
    case _ => false
  }

  /** A completed journal without a submission, a session that the chain shows as closed, or reverted closes. */
  ghost predicate ReconcileDecides(cfg: Config, s: State, step: ReconcileStep, id: Id) {
    match step
    case FromJournal(snapshot, progress, _) =>
      && id in s.rows && snapshot == s.rows[id] && snapshot.state.ClosePending?
      && progress.Some? && progress.value.completed && progress.value.stage.StageNotSubmitted?
    case FromTruth(snapshot, read, receipts, _) =>
      && id in s.rows && snapshot == s.rows[id] && read.Ok? && About(cfg, snapshot, read.value)
      && (|| read.value.closedAt != 0
          || (snapshot.state.ClosePending? && exists txs :: Lists(snapshot, txs) && AllReverted(txs, receipts)))
    case _ => false
  }

  /** A borrower that had listed the session as open loses its read of it, or is told about another session. */
  ghost predicate BorrowerOverwrites(cfg: Config, s: State, step: BorrowStep, id: Id) {
    match step
    case VerifyAcquire(task, read, _, _) =>
      && task in s.mem.borrowers && s.mem.borrowers[task].Verifying? && s.mem.borrowers[task].row.id == id
      && ((read.Err? && !read.failure.code.Admission?)
          || (read.Ok? && !About(cfg, s.mem.borrowers[task].row, read.value)))
    case _ => false
  }

  ghost predicate Decides(cfg: Config, s: State, step: Step, id: Id) {
    match step
    case Closes(c) => AnswerDecides(cfg, s, c, id)
    case Reconciles(r) => ReconcileDecides(cfg, s, r, id)
    case Borrows(b) => BorrowerOverwrites(cfg, s, b, id)
    case _ => false
  }

  /** No task that holds the lock will write the row from a copy taken before its close was sent. */
  predicate SentBy(lock: Holder, id: Id) {
    match lock
    case OpenSubmitted(_, _, row) => row.id != id
    case OpenConfirming(_, _, row) => row.id != id
    case CloseReading(row) => row.id != id
    case _ => true
  }

  /** The close of the row was handed to the node and is undecided. */
  predicate Unanswered(s: State, id: Id) {
    && id in s.rows && (s.rows[id].state.Closing? || s.rows[id].state.ClosePending?)
    && SentBy(s.lock, id)
  }

  ghost predicate NoNewClose(s: State, t: State, id: Id) {
    t.calls == s.calls || (|t.calls| > 0 && t.calls[..|t.calls| - 1] == s.calls
                           && forall op :: t.calls[|t.calls| - 1] != CallClose(id, op))
  }

  /** One step: the row stops being sent exactly if the step decides it, and else no close of it is sent. */
  ghost predicate StaysSent(cfg: Config, s: State, step: Step, id: Id)
    requires Enabled(s, step)
  {
    var t := Apply(cfg, s, step);
    && (!Decides(cfg, s, step, id) <==> id in t.rows && (t.rows[id].state.Closing? || t.rows[id].state.ClosePending?))
    && (!Decides(cfg, s, step, id) ==> Unanswered(t, id) && NoNewClose(s, t, id))
  }

  lemma OpenReplyStays(cfg: Config, s: State, answered: Reply<OpenAnswer>, now: int, id: Id)
    requires Keyed(s) && Unanswered(s, id) && s.lock.OpenSubmitted?
    ensures StaysSent(cfg, s, Opens(ReplyOpen(answered, now)), id)
  {
  }

  lemma OpenConfirmStays(cfg: Config, s: State, read: Reply<Truth>, now: int, id: Id)
    requires Keyed(s) && Unanswered(s, id) && s.lock.OpenConfirming?
    ensures StaysSent(cfg, s, Opens(ConfirmOpen(read, now)), id)
  {
  }

  lemma OpenStays(cfg: Config, s: State, step: OpenStep, id: Id)
    requires Keyed(s) && Unanswered(s, id) && CanOpen(s, step)
    ensures StaysSent(cfg, s, Opens(step), id)
  {
    hide ClearWallet;
    match step
    case ReplyOpen(answered, now) => OpenReplyStays(cfg, s, answered, now, id);
    case ConfirmOpen(read, now) => OpenConfirmStays(cfg, s, read, now, id);
    case _ =>
  }

  lemma CloseCheckStays(cfg: Config, s: State, checked: Reply<()>, now: int, id: Id)
    requires Keyed(s) && Unanswered(s, id) && s.lock.CloseChecking?
    ensures StaysSent(cfg, s, Closes(CheckClose(checked, now)), id)
  {
  }

  lemma CloseReadStays(cfg: Config, s: State, read: Reply<Truth>, newId: Id, now: int, id: Id)
    requires Keyed(s) && Unanswered(s, id) && CanClose(s, SubmitClose(read, newId, now))
    ensures StaysSent(cfg, s, Closes(SubmitClose(read, newId, now)), id)
  {
    hide ClearWallet;
  }

  /** Only `not_submitted` turns the answer to a close into anything but a pending close. */
  lemma CloseReplyStays(cfg: Config, s: State, closed: Reply<Option<Tx>>, now: int, id: Id)
    requires Keyed(s) && Unanswered(s, id) && s.lock.CloseSubmitted?
    ensures StaysSent(cfg, s, Closes(ReplyClose(closed, now)), id)
  {
  }

  lemma CloseConfirmStays(cfg: Config, s: State, read: Reply<Truth>, now: int, id: Id)
    requires Keyed(s) && Unanswered(s, id) && s.lock.CloseConfirming?
    ensures StaysSent(cfg, s, Closes(ConfirmClose(read, now)), id)
  {
  }

  lemma CloseStays(cfg: Config, s: State, step: CloseStep, id: Id)
    requires Keyed(s) && Unanswered(s, id) && CanClose(s, step)
    ensures StaysSent(cfg, s, Closes(step), id)
  {
    match step
    case BeginClose(_) =>
    case CheckClose(checked, now) => CloseCheckStays(cfg, s, checked, now, id);
    case SubmitClose(read, newId, now) => CloseReadStays(cfg, s, read, newId, now, id);
    case ReplyClose(closed, now) => CloseReplyStays(cfg, s, closed, now, id);
    case ConfirmClose(read, now) => CloseConfirmStays(cfg, s, read, now, id);
  }

  lemma TreasuryStays(cfg: Config, s: State, step: TreasuryStep, id: Id)
    requires Keyed(s) && Unanswered(s, id) && CanWithdraw(s, step)
    ensures StaysSent(cfg, s, Withdraws(step), id)
  {
  }

  lemma RevertedIsFailed(row: Row, receipts: Reply<seq<Receipt>>)
    ensures CloseTxState(row, receipts).TxFailed? <==> exists txs :: Lists(row, txs) && AllReverted(txs, receipts)
  {
    var txs := CloseTxs(row);
    assert txs != [] ==> Lists(row, txs);
    assert forall other :: Lists(row, other) ==> other == txs;
    if AllReverted(txs, receipts) {
      assert receipts.value[0] == Some(false);
    }
  }

  lemma TruthStays(cfg: Config, s: State, snapshot: Row, read: Reply<Truth>, receipts: Reply<seq<Receipt>>, now: int, id: Id)
    requires Keyed(s) && Unanswered(s, id)
    ensures StaysSent(cfg, s, Reconciles(FromTruth(snapshot, read, receipts, now)), id)
  {
    RevertedIsFailed(snapshot, receipts);
    hide CloseTxState;
    hide Lists;
  }

  lemma ReconcileStays(cfg: Config, s: State, step: ReconcileStep, id: Id)
    requires Keyed(s) && Unanswered(s, id)
    ensures StaysSent(cfg, s, Reconciles(step), id)
  {
    match step
    case FromTruth(snapshot, read, receipts, now) => TruthStays(cfg, s, snapshot, read, receipts, now, id);
    case _ =>
  }

  lemma VerifyStays(cfg: Config, s: State, task: Id, read: Reply<Truth>, now: int, giveUp: bool, id: Id)
    requires Keyed(s) && Unanswered(s, id) && task in s.mem.borrowers && s.mem.borrowers[task].Verifying?
    ensures StaysSent(cfg, s, Borrows(VerifyAcquire(task, read, now, giveUp)), id)
  {
    VerifyFrame(cfg, s, task, read, now, giveUp);
    hide Scan;
  }

  lemma BorrowStays(cfg: Config, s: State, step: BorrowStep, id: Id)
    requires Keyed(s) && Unanswered(s, id) && CanBorrow(s, step)
    ensures StaysSent(cfg, s, Borrows(step), id)
  {
    match step
    case PassAcquire(task, listing, giveUp) =>
      var Waiting(model, prewarm) := s.mem.borrowers[task];
      ScanFrame(s, task, model, prewarm, listing, giveUp);
    case VerifyAcquire(task, read, now, giveUp) => VerifyStays(cfg, s, task, read, now, giveUp, id);
    case _ =>
  }

  lemma UpkeepStays(cfg: Config, s: State, step: UpkeepStep, id: Id)
    requires Keyed(s) && Unanswered(s, id)
    ensures StaysSent(cfg, s, Tends(step), id)
  {
  }

  lemma RestartStays(cfg: Config, s: State, step: RestartStep, id: Id)
    requires Keyed(s) && Unanswered(s, id) && CanRestart(s, step)
    ensures StaysSent(cfg, s, Restarts(step), id)
  {
  }

  /**
   One step, from the moment the close was sent: the row leaves `closing` and `close_pending` if and only if the
   step decides it, and otherwise no close of this session is sent.
   */
  lemma LeavesIffDecided(cfg: Config, s: State, step: Step, id: Id)
    requires Keyed(s) && Unanswered(s, id) && Enabled(s, step)
    ensures StaysSent(cfg, s, step, id)
  {
    match step
    case Opens(o) => OpenStays(cfg, s, o, id);
    case Closes(c) => CloseStays(cfg, s, c, id);
    case Withdraws(w) => TreasuryStays(cfg, s, w, id);
    case Reconciles(r) => ReconcileStays(cfg, s, r, id);
    case Borrows(b) => BorrowStays(cfg, s, b, id);
    case Tends(u) => UpkeepStays(cfg, s, u, id);
    case Restarts(x) => RestartStays(cfg, s, x, id);
  }

  /** What the deciding step makes of the row: closed, given back for another attempt, or quarantined. */
  predicate DecidedState(step: Step, state: SessionState) {
    match step
    case Closes(ConfirmClose(read, _)) => state == if read.Ok? then Closed else Draining
    case Closes(_) => state.Draining?
    case Reconciles(FromTruth(_, read, _, _)) => state == if read.Ok? && read.value.closedAt != 0 then Closed else Draining
    case Reconciles(_) => state.Draining?
    case _ => state.Quarantined?
  }

  lemma DecidedAs(cfg: Config, s: State, step: Step, id: Id)
    requires Keyed(s) && Unanswered(s, id) && Enabled(s, step) && Decides(cfg, s, step, id)
    ensures var t := Apply(cfg, s, step); id in t.rows && DecidedState(step, t.rows[id].state)
  {
    match step
    case Closes(_) =>
    case Reconciles(FromTruth(snapshot, read, receipts, _)) => RevertedIsFailed(snapshot, receipts);
    case Reconciles(_) =>
    case Borrows(VerifyAcquire(task, read, now, giveUp)) => VerifyFrame(cfg, s, task, read, now, giveUp);
    case _ =>
  }

  /**
   A close is sent if and only if the chain, read just before, shows this session as running and nothing else is
   unresolved; a session that it shows as closed is recorded so.
   */
  lemma SendsIff(cfg: Config, s: State, read: Reply<Truth>, newId: Id, now: int)
    requires s.lock.CloseReading?
    ensures var row := s.lock.row;
            var t := CloseRead(cfg, s, read, newId, now);
            if read.Ok? && About(cfg, row, read.value) && read.value.closedAt == 0 && ClearWallet(s, Some(row.id)) then
              t.calls == s.calls + [CallClose(row.id, newId)] && t.lock.CloseSubmitted? && t.lock.row.id == row.id
            else
              && t.calls == s.calls && t.lock.Free?
              && (read.Ok? && About(cfg, row, read.value) && read.value.closedAt != 0 ==>
                    row.id in t.rows && t.rows[row.id].state.Closed? && t.rows[row.id].stake == read.value.stake)
  {
  }

  // ---------------------------------------------------------------- whole runs

  /** A step that sends a close leaves its row unanswered. */
  lemma SendingStarts(cfg: Config, s: State, step: Step, id: Id, op: Id)
    requires Keyed(s) && Enabled(s, step) && Apply(cfg, s, step).calls == s.calls + [CallClose(id, op)]
    ensures Unanswered(Apply(cfg, s, step), id)
  {
    var call := CallClose(id, op);
    assert (s.calls + [call])[|s.calls|] == call;
    if !Submission(step) {
      CallsFrame(cfg, s, step);
    } else {
      var calls := Apply(cfg, s, step).calls;
      assert calls[|calls| - 1] == call;
    }
  }

  /** Some step decides the row after call `i` was sent and before call `j` is. */
  ghost predicate DecidedBetween(cfg: Config, s: State, steps: seq<Step>, id: Id, i: nat, j: nat)
    decreases |steps|
  {
    steps != [] && Enabled(s, steps[0]) &&
    ((i < |s.calls| <= j && Decides(cfg, s, steps[0], id))
     || DecidedBetween(cfg, Apply(cfg, s, steps[0]), steps[1..], id, i, j))
  }

  lemma {:induction false} UnansweredUntil(cfg: Config, s: State, steps: seq<Step>, t: State, id: Id, i: nat, j: nat, op: Id)
    requires WalletInv(s) && Unanswered(s, id) && Run(cfg, s, steps, t)
    requires i < |s.calls| <= j < |t.calls| && t.calls[j] == CallClose(id, op)
    ensures DecidedBetween(cfg, s, steps, id, i, j)
    decreases |steps|
  {
    if !Decides(cfg, s, steps[0], id) {
      LeavesIffDecided(cfg, s, steps[0], id);
      StepKeepsWalletInv(cfg, s, steps[0]);
      var s1 := Apply(cfg, s, steps[0]);
      AtMostOneCall(cfg, s, steps[0]);
      CallsGrow(cfg, s1, steps[1..], t);
      UnansweredUntil(cfg, s1, steps[1..], t, id, i, j, op);
    }
  }

  /**
   In every run, two closes of one session have between them a step that decided the first: an answer or a chain
   read of the lock holder, the journal, reverted receipts, the chain, or a borrower with an old copy.
   */
  lemma {:induction false} NoSecondCloseUndecided(cfg: Config, s: State, steps: seq<Step>, t: State,
                                                  id: Id, i: nat, j: nat, op: Id, op': Id)
    requires WalletInv(s) && Run(cfg, s, steps, t) && |s.calls| <= i < j < |t.calls|
    requires t.calls[i] == CallClose(id, op) && t.calls[j] == CallClose(id, op')
    ensures DecidedBetween(cfg, s, steps, id, i, j)
    decreases |steps|
  {
    var s1 := Apply(cfg, s, steps[0]);
    AtMostOneCall(cfg, s, steps[0]);
    CallsGrow(cfg, s1, steps[1..], t);
    StepKeepsWalletInv(cfg, s, steps[0]);
    if |s1.calls| <= i {
      NoSecondCloseUndecided(cfg, s1, steps[1..], t, id, i, j, op, op');
    } else {
      assert s1.calls == s.calls + [CallClose(id, op)];
      SendingStarts(cfg, s, steps[0], id, op);
      UnansweredUntil(cfg, s1, steps[1..], t, id, i, j, op');
    }
  }

  // ---------------------------------------------------------------- the confirming read

  /** Failed reads of the node carry this label, whatever was submitted before. */
  const LOST_GET := Failure(OtherCode, NotSubmitted, [])

  /** The close was accepted by the node and its session is being read back. */
  ghost predicate Accepted(s: State, row: Row) {
    && s.lock == CloseConfirming(row) && row.state.ClosePending? && row.id in s.rows
    && !s.mem.maintenance && row.id !in s.mem.active && ClearWallet(s, Some(row.id))
  }

  function Dropped(s: State, row: Row): State {
    PutRow(s, MarkError(MarkError(row.(state := Draining, closeTransactions := []), 0), 0))
  }

  lemma ReadIsLost(cfg: Config, s: State, row: Row)
    requires Accepted(s, row)
    ensures Run(cfg, s, [Closes(ConfirmClose(Err(LOST_GET), 0)), Closes(BeginClose(row.id))],
                Dropped(s, row).(lock := CloseChecking(row.id)))
  {
    assert Apply(cfg, s, Closes(ConfirmClose(Err(LOST_GET), 0))) == Dropped(s, row).(lock := Free);
    RunPair(cfg, s, Closes(ConfirmClose(Err(LOST_GET), 0)), Closes(BeginClose(row.id)));
  }

  lemma CloseAgain(cfg: Config, s: State, row: Row, truth: Truth, op: Id) returns (t: State)
    requires Accepted(s, row) && ValidTruth(cfg.wallet, row, truth) && truth.closedAt == 0 && Fresh(s, op)
    ensures Run(cfg, Dropped(s, row).(lock := CloseChecking(row.id)),
                [Closes(CheckClose(Ok(()), 0)), Closes(SubmitClose(Ok(truth), op, 0))], t)
    ensures t.calls == s.calls + [CallClose(row.id, op)]
  {
    var s1 := Dropped(s, row).(lock := CloseChecking(row.id));
    var check, submit := Closes(CheckClose(Ok(()), 0)), Closes(SubmitClose(Ok(truth), op, 0));
    var s2 := s1.(lock := CloseReading(s1.rows[row.id]));
    assert Apply(cfg, s1, check) == s2;
    assert Fresh(s2, op);
    RunPair(cfg, s1, check, submit);
    t := Apply(cfg, s2, submit);
  }

  /** From every such state: if that read is lost, the close is sent a second time although the first was accepted. */
  lemma LostConfirmationRepeats(cfg: Config, s: State, row: Row, truth: Truth, op: Id) returns (steps: seq<Step>, t: State)
    requires Accepted(s, row) && ValidTruth(cfg.wallet, row, truth) && truth.closedAt == 0 && Fresh(s, op)
    ensures Run(cfg, s, steps, t) && t.calls == s.calls + [CallClose(row.id, op)]
  {
    hide Accepted;
    ReadIsLost(cfg, s, row);
    t := CloseAgain(cfg, s, row, truth, op);
    var first := [Closes(ConfirmClose(Err(LOST_GET), 0)), Closes(BeginClose(row.id))];
    var second := [Closes(CheckClose(Ok(()), 0)), Closes(SubmitClose(Ok(truth), op, 0))];
    RunConcat(cfg, s, first, Dropped(s, row).(lock := CloseChecking(row.id)), second, t);
    steps := first + second;
  }

  const CLOSE_HASH := Tx(CloseTx, 1, true)
  const ANSWERED := OpenRow(10).(state := ClosePending, closeOp := Some(20), closeTx := Some(CLOSE_HASH))
  const READING := ONE.(rows := map[10 := ANSWERED], lock := CloseConfirming(ANSWERED), calls := [CallOpen(10, 5), CallClose(10, 20)])

  lemma FirstOpened() returns (steps: seq<Step>)
    ensures Run(CFG, START, steps, ONE)
  {
    hide Run;
    steps := OpenSucceeds(START, [], 10);
    assert START.rows[10 := OpenRow(10)] == ONE.rows && START.calls + [CallOpen(10, 5)] == ONE.calls;
  }

  lemma FirstCloseAnswered()
    ensures var reply := Closes(ReplyClose(Ok(Some(CLOSE_HASH)), 0));
            Run(CFG, StaleBorrower.Sent(ONE, OpenRow(10), 20), [reply], READING)
  {
    var sent, reply := StaleBorrower.Sent(ONE, OpenRow(10), 20), Closes(ReplyClose(Ok(Some(CLOSE_HASH)), 0));
    assert Apply(CFG, sent, reply).rows == READING.rows && sent.calls == READING.calls;
    assert Apply(CFG, sent, reply) == READING;
    assert Run(CFG, READING, [reply][1..], READING);
  }

  /** Session 10 is opened, and its close is answered with a transaction. */
  lemma FirstCloseAccepted() returns (steps: seq<Step>)
    ensures Run(CFG, START, steps, READING) && Accepted(READING, ANSWERED)
  {
    hide Run;
    var open := FirstOpened();
    var send := CloseIsSent(CFG, ONE, 10, RunningTruth(10), 20);
    var sent, reply := StaleBorrower.Sent(ONE, OpenRow(10), 20), Closes(ReplyClose(Ok(Some(CLOSE_HASH)), 0));
    FirstCloseAnswered();
    RunConcat(CFG, ONE, send, sent, [reply], READING);
    RunConcat(CFG, START, open, ONE, send + [reply], READING);
    steps := open + (send + [reply]);
  }

  /** So a reachable run closes session 10 twice, the first close having been answered with a transaction. */
  lemma AcceptedCloseSentTwice() returns (steps: seq<Step>, t: State)
    ensures Init(START) && Run(CFG, START, steps, t)
    ensures t.calls == [CallOpen(10, 5), CallClose(10, 20), CallClose(10, 21)]
  {
    hide Run;
    var first := FirstCloseAccepted();
    var second;
    second, t := LostConfirmationRepeats(CFG, READING, ANSWERED, RunningTruth(10), 21);
    RunConcat(CFG, START, first, READING, second, t);
    steps := first + second;
  }
}
