/**
 What answers leave on record: what a failed read costs, what the chain and the journal said, which hashes are kept.
 */
module AnswersRecorded {
  import opened Options
  import opened SessionRows
  import opened Protocol
  import opened WalletSafety
  import opened UncertainOutcome

  // ---------------------------------------------------------------- failed reads

  /** `later` differs from `row` by one more failure, and the row is not due before a while. */
  predicate BackedOff(row: Row, later: Row, now: int) {
    && later == row.(failures := row.failures + 1, retryAt := later.retryAt)
    && now + 2 <= later.retryAt <= now + 256
  }

  lemma {:induction false} PowersGrow(m: nat, n: nat)
    requires m <= n
    ensures 1 <= Pow2(m) <= Pow2(n)
    decreases n
  {
    if m < n {
      PowersGrow(m, n - 1);
    } else if m > 0 {
      PowersGrow(m - 1, n - 1);
    }
  }

  lemma ErrorBacksOff(row: Row, now: int)
    ensures BackedOff(row, MarkError(row, now), now)
  {
    var n := if row.failures + 1 < 8 then row.failures + 1 else 8;
    PowersGrow(1, n);
    PowersGrow(n, 8);
    assert Pow2(8) == 2 * Pow2(7) == 4 * Pow2(6) == 8 * Pow2(5) == 16 * Pow2(4) == 32 * Pow2(3) == 64 * Pow2(2);
  }

  /** Each further failure doubles the wait, up to 256 seconds. */
  lemma WaitDoubles(row: Row, first: int, second: int)
    ensures var one := MarkError(row, first);
            var two := MarkError(one, second);
            two.retryAt - second == Min(256, 2 * (one.retryAt - first))
  {
    assert Pow2(8) == 2 * Pow2(7) == 4 * Pow2(6) == 8 * Pow2(5) == 16 * Pow2(4) == 32 * Pow2(3) == 64 * Pow2(2) == 256;
    var n := row.failures + 1;
    if n < 8 {
      PowersGrow(n + 1, 8);
    }
  }

  /** The row as the task knows it whose read fails in this step, and when. */
  ghost function FailedRead(cfg: Config, s: State, step: Step): Option<(Row, int)>
    requires Enabled(s, step)
  {
    match step
    case Closes(CheckClose(checked, now)) =>
      if checked.Err? && s.lock.id in s.rows then Some((s.rows[s.lock.id], now)) else None
    case Closes(SubmitClose(read, _, now)) =>
      if read.Err? || (read.Ok? && !About(cfg, s.lock.row, read.value)) then Some((s.lock.row, now)) else None
    case Reconciles(FromTruth(snapshot, read, receipts, now)) =>
      if (&& snapshot.chainId.Some? && snapshot.id in s.rows && s.rows[snapshot.id] == snapshot
          && (|| read.Err? || (read.Ok? && !About(cfg, snapshot, read.value))
              || (read.Ok? && read.value.closedAt == 0 && snapshot.state.ClosePending? && receipts.Err?)))
      then Some((snapshot, now)) else None
    case Reconciles(FromReceipts(id, receipts, now)) =>
      if (&& id in s.rows && s.rows[id].state.OpenUnknown? && s.rows[id].chainId.None?
          && (exists tx :: tx in s.rows[id].transactions && tx.kind.OpenTx?) && receipts.Err?)
      then Some((s.rows[id], now)) else None
    case Borrows(VerifyAcquire(task, read, now, _)) =>
      var row := s.mem.borrowers[task].row;
      if (read.Err? && !read.failure.code.Admission?) || (read.Ok? && !About(cfg, row, read.value))
      then Some((row.(state := Quarantined), now)) else None
    case _ => None
  }

  lemma {:induction false} OpenTxsAre(txs: seq<Tx>)
    ensures forall tx :: tx in OpenTxs(txs) <==> tx in txs && tx.kind.OpenTx?
    ensures |OpenTxs(txs)| <= |txs|
  {
    if txs != [] {
      OpenTxsAre(txs[1..]);
      assert txs == [txs[0]] + txs[1..];
    }
  }

  /** They keep their order and their number. */
  lemma {:induction false} OpenTxsJoin(txs: seq<Tx>, more: seq<Tx>)
    ensures OpenTxs(txs + more) == OpenTxs(txs) + OpenTxs(more)
    ensures forall tx: Tx :: tx.kind.OpenTx? ==> OpenTxs([tx]) == [tx]
  {
    if txs == [] {
      assert txs + more == more;
    } else {
      assert (txs + more)[1..] == txs[1..] + more;
      OpenTxsJoin(txs[1..], more);
    }
  }

  lemma TruthFails(cfg: Config, s: State, snapshot: Row, read: Reply<Truth>, receipts: Reply<seq<Receipt>>, now: int)
    requires Keyed(s) && FailedRead(cfg, s, Reconciles(FromTruth(snapshot, read, receipts, now))).Some?
    ensures ReconcileTruth(cfg, s, snapshot, read, receipts, now) == PutRow(s, MarkError(snapshot, now))
  {
  }

  /** Every failed read counts, and puts the row off. */
  lemma FailuresCount(cfg: Config, s: State, step: Step)
    requires Keyed(s) && Enabled(s, step) && FailedRead(cfg, s, step).Some?
    ensures var (row, now) := FailedRead(cfg, s, step).value;
            var t := Apply(cfg, s, step);
            row.id in t.rows && BackedOff(row, t.rows[row.id], now)
  {
    var (row, now) := FailedRead(cfg, s, step).value;
    ErrorBacksOff(row, now);
    hide MarkError;
    match step
    case Reconciles(FromTruth(snapshot, read, receipts, at)) => TruthFails(cfg, s, snapshot, read, receipts, at);
    case Reconciles(FromReceipts(id, _, _)) => OpenTxsAre(s.rows[id].transactions);
    case Borrows(VerifyAcquire(task, read, at, giveUp)) => VerifyFrame(cfg, s, task, read, at, giveUp);
    case _ =>
  }

  // ---------------------------------------------------------------- what the chain and the journal said

  /** A state that the chain's word about a running session does not change. */
  predicate Settled(state: SessionState) {
    !state.OpenUnknown? && !state.Quarantined? && !state.ClosePending?
  }

  /** Pass 2 takes over stake and end; an uncertain or quarantined session is open again, a closed one closed. */
  lemma TruthTaken(cfg: Config, s: State, snapshot: Row, truth: Truth, receipts: Reply<seq<Receipt>>, now: int)
    requires Unchanged(s, snapshot) && About(cfg, snapshot, truth) && snapshot.chainId.Some?
    requires truth.closedAt == 0 && snapshot.state.ClosePending? ==> receipts.Ok?
    ensures var t := ReconcileTruth(cfg, s, snapshot, Ok(truth), receipts, now);
            && t == s.(rows := t.rows) && t.rows.Keys == s.rows.Keys
            && (forall id :: id in s.rows && id != snapshot.id ==> t.rows[id] == s.rows[id])
            && var row := t.rows[snapshot.id];
               && row.stake == truth.stake && (truth.closedAt == 0 ==> row.endsAt == truth.endsAt)
               && (truth.closedAt != 0 ==> row.state.Closed?)
               && (truth.closedAt == 0 && (snapshot.state.OpenUnknown? || snapshot.state.Quarantined?) ==> row.state.Open?)
               && (truth.closedAt == 0 && Settled(snapshot.state) ==> row.state == snapshot.state)
  {
  }

  /** Pass 1 takes over the journal's transactions, and the session id of an uncertain opening. */
  lemma JournalTaken(s: State, snapshot: Row, progress: Progress, now: int)
    requires Unchanged(s, snapshot) && (snapshot.state.OpenUnknown? || snapshot.state.ClosePending?)
    ensures var silent := progress.completed && progress.stage.StageNotSubmitted?;
            var t := ReconcileJournal(s, snapshot, Some(progress), now);
            && t == s.(rows := t.rows) && t.rows.Keys == s.rows.Keys
            && (forall id :: id in s.rows && id != snapshot.id ==> t.rows[id] == s.rows[id])
            && var row := t.rows[snapshot.id];
               if snapshot.state.OpenUnknown? then
                 && row.transactions == progress.transactions
                 && row.chainId == (if progress.sessionId.Some? then progress.sessionId else snapshot.chainId)
                 && row.state == (if progress.sessionId.None? && silent then Failed else OpenUnknown)
               else
                 && row.closeTransactions == progress.transactions && row.chainId == snapshot.chainId
                 && row.state == (if silent then Draining else ClosePending) && (silent ==> row.retryAt == now + 30)
  {
  }

  /** A bind is accepted if and only if the opening is uncertain, nobody manages the session, and it fits in time. */
  lemma BindsIff(cfg: Config, s: State, id: Id, chainId: Id, truth: Truth)
    requires Keyed(s)
    ensures var accepted := && id in s.rows && s.rows[id].state.OpenUnknown?
                            && (forall x :: x in s.rows && x != id && !s.rows[x].state.Closed? && !s.rows[x].state.Failed?
                                  ==> s.rows[x].chainId != Some(chainId))
                            && About(cfg, s.rows[id].(chainId := Some(chainId)), truth)
                            && s.rows[id].createdAt - 5 <= truth.openedAt
                            && truth.openedAt <= s.rows[id].createdAt + cfg.openTimeout + 120;
            var t := Bind(cfg, s, id, chainId, truth);
            if accepted then
              && t == s.(rows := t.rows) && t.rows.Keys == s.rows.Keys
              && (forall x :: x in s.rows && x != id ==> t.rows[x] == s.rows[x])
              && t.rows[id].chainId == Some(chainId) && t.rows[id].stake == truth.stake && t.rows[id].endsAt == truth.endsAt
              && t.rows[id].state == (if truth.closedAt == 0 then Open else Closed)
            else t == s
  {
  }

  /** A wallet session is adopted, to be closed, if and only if it runs, is this wallet's and nobody manages it. */
  lemma AdoptsIff(cfg: Config, s: State, rowId: Id, truth: Truth, now: int, retryAt: int)
    ensures var accepted := && (forall x :: x in s.rows && !s.rows[x].state.Closed? && !s.rows[x].state.Failed?
                                  ==> x != rowId && s.rows[x].chainId != Some(truth.id))
                            && truth.user == cfg.wallet && truth.closedAt == 0
                            && truth.endsAt >= 0 && truth.stake >= 0 && truth.openedAt >= 0;
            var t := SweepAdopt(cfg, s, rowId, truth, now, retryAt);
            if accepted then
              && rowId in t.rows && t == s.(rows := s.rows[rowId := t.rows[rowId]])
              && var row := t.rows[rowId];
                 && row.id == rowId && row.state.Orphaned? && row.chainId == Some(truth.id) && row.stake == truth.stake
                 && row.model == truth.model && row.provider == truth.provider && row.bid == truth.bid
                 && row.endsAt == truth.endsAt && row.createdAt == now && row.retryAt == retryAt
            else t == s
  {
  }

  /** Candidates collect. */
  lemma CandidatesCollect(s: State, id: Id, candidate: Id, now: int)
    requires id in s.rows && s.rows[id].state.OpenUnknown? && s.rows[id].chainId.None? && Keyed(s)
    ensures var t := SweepNote(s, id, Some(candidate), now);
            id in t.rows && t.rows[id] == s.rows[id].(candidates := s.rows[id].candidates + {candidate})
  {
  }

  // ---------------------------------------------------------------- hashes that came with a failure

  /** The transactions that a failed call lists are on record with what they belong to. */
  lemma FailureKeepsHashes(cfg: Config, s: State, failure: Failure, now: int)
    ensures s.lock.OpenSubmitted? && failure.transactions != [] ==>
              var t := OpenReply(s, Err(failure), now);
              s.lock.row.id in t.rows && t.rows[s.lock.row.id].transactions == failure.transactions
    ensures s.lock.OpenConfirming? && failure.transactions == [] ==>
              var t := OpenConfirm(cfg, s, Err(failure), now);
              s.lock.row.id in t.rows && t.rows[s.lock.row.id].transactions == s.lock.row.transactions
    ensures s.lock.CloseSubmitted? ==>
              var t := CloseReply(s, Err(failure), now);
              s.lock.row.id in t.rows && t.rows[s.lock.row.id].closeTransactions == failure.transactions
    ensures s.lock.WithdrawSubmitted? ==>
              var t := WithdrawReply(s, Err(failure));
              s.lock.op.id in t.ops && t.ops[s.lock.op.id].transactions == failure.transactions
  {
  }

  /** So are those that came with an answer, and the operation under which a close was sent. */
  lemma AnswersKeepHashes(cfg: Config, s: State, answer: OpenAnswer, tx: Tx, now: int)
    ensures s.lock.OpenSubmitted? && answer.sessionId.Some? ==>
              var t := OpenReply(s, Ok(answer), now);
              && s.lock.row.id in t.rows && t.rows[s.lock.row.id].transactions == answer.transactions
              && t.rows[s.lock.row.id].chainId == answer.sessionId && t.lock == OpenConfirming(s.lock.model, s.lock.attempt, t.rows[s.lock.row.id])
    ensures s.lock.CloseSubmitted? ==>
              var t := CloseReply(s, Ok(Some(tx)), now);
              && s.lock.row.id in t.rows && t.rows[s.lock.row.id].closeTx == Some(tx)
              && t.rows[s.lock.row.id].closeOp == s.lock.row.closeOp
    ensures s.lock.WithdrawSubmitted? ==>
              var t := WithdrawReply(s, Ok(Some(tx)));
              s.lock.op.id in t.ops && t.ops[s.lock.op.id].transactions == [tx]
  {
  }

  /** A close is sent under the operation id on record, by which its journal is found. */
  lemma CloseIsFiled(cfg: Config, s: State, step: Step, id: Id, op: Id)
    requires Enabled(s, step) && Apply(cfg, s, step).calls == s.calls + [CallClose(id, op)]
    ensures var t := Apply(cfg, s, step); id in t.rows && t.rows[id].closeOp == Some(op) && t.rows[id].state.Closing?
  {
    var call := CallClose(id, op);
    assert (s.calls + [call])[|s.calls|] == call;
    if !Submission(step) {
      CallsFrame(cfg, s, step);
    } else {
      var calls := Apply(cfg, s, step).calls;
      assert calls[|calls| - 1] == call;
    }
  }

  /** The journal of an earlier withdrawal is taken over even if it decides nothing. */
  lemma WithdrawalJournalTaken(s: State, progress: Progress, receipts: Reply<seq<Receipt>>)
    requires Keyed(s) && s.lock.TreasuryScanning? && s.lock.todo != [] && s.lock.todo[0] in s.ops
    ensures var id := s.lock.todo[0];
            var t := TreasuryResolve(s, Some(progress), receipts);
            id in t.ops && t.ops[id].transactions == progress.transactions
  {
  }
}
