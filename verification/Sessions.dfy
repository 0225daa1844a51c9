/**
 The `Sessions` object: its fields and its await-free segments, each proved to be the corresponding step of
 the protocol.  A segment takes the awaited reply as a parameter and runs to the next await; an error raised
 in the source ends the segment with the lock released where the `async with` block would release it.
 */
module SessionsObject {
  import opened Options
  import opened SessionRows
  import P = Protocol
  import opened Protocol
  import opened Rebalancing

  class Sessions {
    const cfg: Config
    var rows: map<Id, Row>
    var ops: map<Id, Op>
    var policy: Policy
    var lock: Holder
    var active: set<Id>
    var waiting: nat
    var maintenance: bool
    var borrowers: map<Id, Borrower>
    var restarting: RestartTask
    var calls: seq<Call>

    ghost function View(): State
      reads this
    {
      State(rows, ops, policy, lock, Memory(active, waiting, maintenance, borrowers, restarting), calls)
    }

    constructor (cfg: Config, policy: Policy)
      ensures Init(View()) && this.cfg == cfg && this.policy == policy
    {
      this.cfg, this.policy := cfg, policy;
      rows, ops, lock, active, waiting, maintenance := map[], map[], Free, {}, 0, false;
      borrowers, restarting, calls := map[], NoRestart, [];
    }

    // -------------------------------------------------------------- _open

    method OpenAttempt(model: Id, attempt: nat)
      modifies `lock
      ensures View() == P.OpenAttempt(old(View()), model, attempt)
    {
      if policy.paused || maintenance || model !in policy.models {
        lock := Free;
      } else {
        lock := OpenChecking(model, attempt, policy);
      }
    }

    /** One pass over the listed rows computes what the source's `any`, `len` and `sum` do. */
    method OpenCheck(reply: Reply<()>, listing: seq<Row>)
      requires lock.OpenChecking?
      modifies `lock
      ensures View() == P.OpenCheck(old(View()), reply, listing)
    {
      var OpenChecking(model, attempt, snapshot) := lock;
      lock := Free;
      if !reply.Ok? {
        return;
      }
      var uncertain, sameModel, reserved := false, 0, 0;
      var i := |listing|;
      while i > 0
        invariant 0 <= i <= |listing|
        invariant uncertain <==> exists k :: i <= k < |listing| && (listing[k].state.Opening? || listing[k].state.OpenUnknown?)
        invariant sameModel == CountModel(listing[i..], model)
        invariant reserved == SumStakes(listing[i..])
      {
        i := i - 1;
        var row := listing[i];
        assert listing[i..] == [row] + listing[i + 1..];
        uncertain := uncertain || row.state.Opening? || row.state.OpenUnknown?;
        if row.model == model {
          sameModel := sameModel + 1;
        }
        reserved := reserved + row.stake;
      }
      assert listing[0..] == listing;
      if uncertain || model !in snapshot.models || |listing| >= snapshot.maxSessions
         || sameModel >= snapshot.models[model] {
        return;
      }
      var clear := RequireClearWallet(None);
      if clear {
        lock := OpenQuoting(model, attempt, snapshot, reserved);
      }
    }

    /** `require_clear_wallet`, as a scan of both tables. */
    method RequireClearWallet(excluding: Option<Id>) returns (clear: bool)
      ensures clear == ClearWallet(View(), excluding)
    {
      clear := true;
      var todo := rows.Keys;
      while todo != {}
        invariant todo <= rows.Keys
        invariant clear <==> forall id :: id in rows.Keys - todo && excluding != Some(id) ==> !RowUnresolved(rows[id])
        decreases |todo|
      {
        var id :| id in todo;
        todo := todo - {id};
        clear := clear && (excluding == Some(id) || !RowUnresolved(rows[id]));
      }
      todo := ops.Keys;
      ghost var rowsClear := clear;
      while todo != {}
        invariant todo <= ops.Keys
        invariant clear <==> rowsClear && forall id :: id in ops.Keys - todo ==> !OpUnresolved(ops[id])
        decreases |todo|
      {
        var id :| id in todo;
        todo := todo - {id};
        clear := clear && !OpUnresolved(ops[id]);
      }
    }

    method OpenSubmit(reply: Reply<Quote>, newId: Id, now: int)
      requires lock.OpenQuoting?
      modifies `lock, `rows, `calls
      ensures View() == P.OpenSubmit(old(View()), reply, newId, now)
    {
      var OpenQuoting(model, attempt, snapshot, reserved) := lock;
      lock := Free;
      if !reply.Ok? {
        return;
      }
      var quote := reply.value;
      var remaining := snapshot.maxTotalStake - (reserved + quote.hold + quote.available);
      var limit := Min(snapshot.maxSessionStake, Min(remaining, quote.mor - snapshot.minLiquid));
      if quote.estimate <= 0 || quote.estimate > limit || quote.eth < snapshot.minEth {
        return;
      }
      if policy.revision != snapshot.revision || !Permits(policy, quote.provider) || maintenance || policy.paused {
        return;
      }
      var row := NewRow(newId, model, quote, limit, now);
      rows := rows[newId := row];
      calls := calls + [CallOpen(newId, limit)];
      lock := OpenSubmitted(model, attempt, row);
    }

    /** The `except` clause around submission and confirmation. */
    method OpenFailed(model: Id, attempt: nat, row: Row, failure: Failure, now: int)
      modifies `lock, `rows
      ensures View() == P.OpenError(old(View()), model, attempt, row, failure, now)
    {
      var failed := row;
      if failure.outcome.NotSubmitted? {
        failed := failed.(state := Failed);
      } else {
        failed := failed.(state := OpenUnknown);
      }
      if failure.transactions != [] {
        failed := failed.(transactions := failure.transactions);
      }
      failed := MarkError(failed, now);
      rows := rows[row.id := failed];
      if failure.code.ProviderDeclined? && attempt < 2 {
        OpenAttempt(model, attempt + 1);
      } else {
        lock := Free;
      }
    }

    method OpenReply(reply: Reply<OpenAnswer>, now: int)
      requires lock.OpenSubmitted?
      modifies `lock, `rows
      ensures View() == P.OpenReply(old(View()), reply, now)
    {
      var OpenSubmitted(model, attempt, row) := lock;
      match reply
      case Ok(answer) =>
        if answer.sessionId.None? {
          OpenFailed(model, attempt, row, PROTOCOL_ERROR, now);
        } else {
          row := row.(chainId := answer.sessionId, transactions := answer.transactions);
          rows := rows[row.id := row];
          lock := OpenConfirming(model, attempt, row);
        }
      case Err(failure) => OpenFailed(model, attempt, row, failure, now);
      case Cancelled =>
        rows := rows[row.id := row.(state := OpenUnknown)];
        lock := Free;
    }

    method OpenConfirm(reply: Reply<Truth>, now: int)
      requires lock.OpenConfirming?
      modifies `lock, `rows
      ensures View() == P.OpenConfirm(cfg, old(View()), reply, now)
    {
      var OpenConfirming(model, attempt, row) := lock;
      match reply
      case Ok(truth) =>
        if !ValidTruth(cfg.wallet, row, truth) {
          OpenFailed(model, attempt, row, PROTOCOL_ERROR, now);
        } else {
          row := row.(state := if truth.closedAt != 0 then Closed else Open,
                      endsAt := truth.endsAt, stake := truth.stake);
          if policy.paused || model !in policy.models || !Permits(policy, row.provider) {
            row := row.(state := Draining);
          }
          rows := rows[row.id := row];
          lock := Free;
        }
      case Err(failure) => OpenFailed(model, attempt, row, failure, now);
      case Cancelled =>
        rows := rows[row.id := row.(state := OpenUnknown)];
        lock := Free;
    }

    // -------------------------------------------------------------- close and _close

    method CloseRequest(id: Id)
      modifies `rows
      ensures View() == P.CloseRequest(old(View()), id)
    {
      if id in rows {
        var row := rows[id];
        if row.state.Open? || row.state.Quarantined? || row.state.Orphaned? {
          row := row.(state := Draining);
          rows := rows[row.id := row];
        }
      }
    }

    method CloseCheck(reply: Reply<()>, now: int)
      requires lock.CloseChecking?
      modifies `lock, `rows
      ensures View() == P.CloseCheck(old(View()), reply, now)
    {
      var id := lock.id;
      lock := Free;
      if id !in rows || reply.Cancelled? {
        return;
      }
      var row := rows[id];
      if reply.Err? {
        rows := rows[row.id := MarkError(row, now)];
      } else if row.state.Closed? || row.state.Failed? || row.state.Closing? || row.state.ClosePending? {
        return;
      } else if id in active {
        rows := rows[row.id := row.(state := Draining)];
      } else if row.chainId.Some? {
        lock := CloseReading(row);
      }
    }

    method CloseRead(reply: Reply<Truth>, newOp: Id, now: int)
      requires lock.CloseReading?
      modifies `lock, `rows, `calls
      ensures View() == P.CloseRead(cfg, old(View()), reply, newOp, now)
    {
      var row := lock.row;
      var clear := RequireClearWallet(Some(row.id));
      if reply.Cancelled? {
        lock := Free;
      } else if reply.Err? || !ValidTruth(cfg.wallet, row, reply.value) {
        rows := rows[row.id := MarkError(row, now)];
        lock := Free;
      } else if reply.value.closedAt != 0 {
        rows := rows[row.id := RecordClosed(row, reply.value)];
        lock := Free;
      } else if !clear {
        rows := rows[row.id := MarkError(row, now)];
        lock := Free;
      } else {
        row := row.(state := Closing, closeOp := Some(newOp));
        rows := rows[row.id := row];
        calls := calls + [CallClose(row.id, newOp)];
        lock := CloseSubmitted(row);
      }
    }

    method CloseFailed(row: Row, failure: Failure, now: int)
      modifies `lock, `rows
      ensures View() == P.CloseError(old(View()), row, failure, now)
    {
      var failed := row.(closeTransactions := failure.transactions);
      failed := if failure.outcome.NotSubmitted? then failed.(state := Draining) else failed.(state := ClosePending);
      failed := MarkError(failed, now);  // inner handler
      rows := rows[row.id := failed];
      failed := MarkError(failed, now);  // outer handler
      rows := rows[row.id := failed];
      lock := Free;
    }

    method CloseReply(reply: Reply<Option<Tx>>, now: int)
      requires lock.CloseSubmitted?
      modifies `lock, `rows
      ensures View() == P.CloseReply(old(View()), reply, now)
    {
      var row := lock.row;
      match reply
      case Ok(tx) =>
        row := row.(closeTx := tx, state := ClosePending);
        rows := rows[row.id := row];
        lock := CloseConfirming(row);
      case Err(failure) => CloseFailed(row, failure, now);
      case Cancelled =>
        rows := rows[row.id := row.(state := ClosePending)];
        lock := Free;
    }

    method CloseConfirm(reply: Reply<Truth>, now: int)
      requires lock.CloseConfirming?
      modifies `lock, `rows
      ensures View() == P.CloseConfirm(cfg, old(View()), reply, now)
    {
      var row := lock.row;
      match reply
      case Ok(truth) =>
        if !ValidTruth(cfg.wallet, row, truth) {
          CloseFailed(row, PROTOCOL_ERROR, now);
        } else {
          if truth.closedAt != 0 {
            rows := rows[row.id := RecordClosed(row, truth)];
          }
          lock := Free;
        }
      case Err(failure) => CloseFailed(row, failure, now);
      case Cancelled =>
        rows := rows[row.id := row.(state := ClosePending)];
        lock := Free;
    }

    // -------------------------------------------------------------- treasury

    /** One earlier withdrawal: journal first, then the receipt loop. */
    method TreasuryResolve(progress: Option<Progress>, receipts: Reply<seq<Receipt>>)
      requires lock.TreasuryScanning? && lock.todo != [] && lock.todo[0] in ops
      modifies `lock, `ops
      ensures View() == P.TreasuryResolve(old(View()), progress, receipts)
    {
      var rest := lock.todo[1..];
      var op := ops[lock.todo[0]];
      if progress.Some? {
        op := op.(transactions := progress.value.transactions);
        if progress.value.completed && progress.value.httpStatus == 200 {
          ops := ops[op.id := op.(state := Succeeded)];
          lock := TreasuryScanning(rest);
          return;
        }
        if progress.value.completed && progress.value.stage.StageNotSubmitted? {
          ops := ops[op.id := op.(state := OpFailed)];
          lock := TreasuryScanning(rest);
          return;
        }
      }
      var state := TxUnknown;
      if receipts.Ok? && |receipts.value| == |op.transactions| {
        state := ReadTransactionState(op.transactions, receipts.value);
      }
      if state.TxSucceeded? {
        ops := ops[op.id := op.(state := Succeeded)];
        lock := TreasuryScanning(rest);
      } else if state.TxFailed? {
        ops := ops[op.id := op.(state := OpFailed)];
        lock := TreasuryScanning(rest);
      } else {
        ops := ops[op.id := op];
        lock := Free;
      }
    }

    method TreasurySubmit(due: bool, newId: Id, now: int)
      requires lock.TreasuryScanning? && lock.todo == []
      modifies `lock, `ops, `calls
      ensures View() == P.TreasurySubmit(old(View()), due, newId, now)
    {
      lock := Free;
      if !due || exists id :: id in rows && RowUnresolved(rows[id]) {
        return;
      }
      var op := Op(newId, Withdrawal, Submitting, now, []);
      ops := ops[newId := op];
      calls := calls + [CallWithdraw(newId)];
      lock := WithdrawSubmitted(op);
    }

    method WithdrawReply(reply: Reply<Option<Tx>>)
      requires lock.WithdrawSubmitted?
      modifies `lock, `ops
      ensures View() == P.WithdrawReply(old(View()), reply)
    {
      var op := lock.op;
      lock := Free;
      match reply {
        case Ok(Some(tx)) =>
          op := op.(state := Succeeded, transactions := [tx]);
          lock := WithdrawRefreshing;
        case Ok(None) =>
          op := op.(state := Uncertain, transactions := []);
        case Err(failure) =>
          op := op.(state := if failure.outcome.NotSubmitted? then OpFailed else Uncertain,
                    transactions := failure.transactions);
        case Cancelled =>
          op := op.(state := Uncertain);
      }
      ops := ops[op.id := op];
    }

    // -------------------------------------------------------------- reconcile and bind

    method ReconcileJournal(snapshot: Row, progress: Option<Progress>, now: int)
      modifies `rows
      ensures View() == P.ReconcileJournal(old(View()), snapshot, progress, now)
    {
      if !(snapshot.state.OpenUnknown? || snapshot.state.ClosePending?) {
        return;
      }
      if snapshot.id !in rows || rows[snapshot.id] != snapshot || progress.None? {
        return;
      }
      var row := snapshot;
      var silent := progress.value.completed && progress.value.stage.StageNotSubmitted?;
      if row.state.OpenUnknown? {
        row := row.(transactions := progress.value.transactions);
        if progress.value.sessionId.Some? {
          row := row.(chainId := progress.value.sessionId);
        } else if silent {
          row := row.(state := Failed);
        }
      } else {
        row := row.(closeTransactions := progress.value.transactions);
        if silent {
          row := row.(state := Draining, retryAt := now + 30);
        }
      }
      rows := rows[row.id := row];
    }

    method ReconcileTruth(snapshot: Row, reply: Reply<Truth>, receipts: Reply<seq<Receipt>>, now: int)
      modifies `rows
      ensures View() == P.ReconcileTruth(cfg, old(View()), snapshot, reply, receipts, now)
    {
      if snapshot.chainId.None? || reply.Cancelled? {
        return;
      }
      if snapshot.id !in rows || rows[snapshot.id] != snapshot {
        return;
      }
      if reply.Err? || !ValidTruth(cfg.wallet, snapshot, reply.value) {
        rows := rows[snapshot.id := MarkError(snapshot, now)];
        return;
      }
      var truth := reply.value;
      if truth.closedAt != 0 {
        rows := rows[snapshot.id := RecordClosed(snapshot, truth)];
        return;
      }
      var row := snapshot;
      if row.state.OpenUnknown? || row.state.Quarantined? {
        row := row.(state := Open);
      }
      if row.state.ClosePending? {
        if receipts.Cancelled? {
          return;
        }
        if receipts.Err? {
          rows := rows[row.id := MarkError(row, now)];
          return;
        }
        if |receipts.value| == |CloseTxs(row)| {
          var state := ReadTransactionState(CloseTxs(row), receipts.value);
          if state.TxFailed? {
            row := row.(state := Draining, retryAt := now + 30);
          }
        }
      }
      row := row.(endsAt := truth.endsAt, stake := truth.stake);
      rows := rows[row.id := row];
    }

    method ReconcileReceipts(id: Id, receipts: Reply<seq<Receipt>>, now: int)
      modifies `rows
      ensures View() == P.ReconcileReceipts(old(View()), id, receipts, now)
    {
      if id !in rows || !rows[id].state.OpenUnknown? || rows[id].chainId.Some? {
        return;
      }
      var row := rows[id];
      var txs := OpenTxs(row.transactions);
      if txs == [] || receipts.Cancelled? {
        return;
      }
      if receipts.Err? {
        rows := rows[row.id := MarkError(row, now)];
      } else if |receipts.value| == |txs| {
        var state := ReadTransactionState(txs, receipts.value);
        if state.TxFailed? {
          rows := rows[row.id := row.(state := Failed)];
        }
      }
    }

    method Bind(id: Id, chainId: Id, truth: Truth)
      modifies `rows
      ensures View() == P.Bind(cfg, old(View()), id, chainId, truth)
    {
      if id !in rows || !rows[id].state.OpenUnknown? {
        return;
      }
      if exists x :: x in rows && x != id && Live(rows[x]) && rows[x].chainId == Some(chainId) {
        return;
      }
      var row := rows[id].(chainId := Some(chainId));
      if !ValidTruth(cfg.wallet, row, truth) {
        return;
      }
      if truth.openedAt < row.createdAt - 5 || truth.openedAt > row.createdAt + cfg.openTimeout + 120 {
        return;
      }
      row := row.(state := Open, endsAt := truth.endsAt, stake := truth.stake);
      if truth.closedAt != 0 {
        row := RecordClosed(row, truth);
      }
      rows := rows[row.id := row];
    }

    // -------------------------------------------------------------- acquire, release, invalidate

    method AcquireBegin(task: Id, model: Id, prewarm: bool)
      requires task !in borrowers
      modifies `waiting, `borrowers
      ensures View() == P.AcquireBegin(old(View()), task, model, prewarm)
    {
      if policy.paused || maintenance || waiting >= 64 {
        return;
      }
      waiting := waiting + 1;
      borrowers := borrowers[task := Waiting(model, prewarm)];
    }

    method Leave(task: Id)
      modifies `waiting, `borrowers
      ensures View() == P.Leave(old(View()), task)
    {
      if waiting > 0 {
        waiting := waiting - 1;
      }
      borrowers := borrowers - {task};
    }

    /** The `for row in rows` loop: skip unusable copies, reserve the first usable one before awaiting. */
    method Scan(task: Id, model: Id, prewarm: bool, rest: seq<Row>, giveUp: bool)
      modifies `active, `waiting, `borrowers
      ensures View() == P.Scan(old(View()), task, model, prewarm, rest, giveUp)
    {
      var i := 0;
      while i < |rest|
        invariant 0 <= i <= |rest|
        invariant View() == old(View())
        invariant P.Scan(old(View()), task, model, prewarm, rest, giveUp)
               == P.Scan(old(View()), task, model, prewarm, rest[i..], giveUp)
      {
        var row := rest[i];
        assert rest[i..][1..] == rest[i + 1..];
        if row.model == model && row.state.Open? && row.id !in active {
          active := active + {row.id};
          borrowers := borrowers[task := Verifying(model, prewarm, row, rest[i + 1..])];
          return;
        }
        i := i + 1;
      }
      assert rest[i..] == [];
      if giveUp || exists id :: id in rows && rows[id].state.OpenUnknown? {
        Leave(task);
      } else {
        borrowers := borrowers[task := Waiting(model, prewarm)];
      }
    }

    method AcquirePass(task: Id, listing: seq<Row>, giveUp: bool)
      requires task in borrowers && borrowers[task].Waiting?
      modifies `active, `waiting, `borrowers
      ensures View() == P.AcquirePass(old(View()), task, listing, giveUp)
    {
      var Waiting(model, prewarm) := borrowers[task];
      if maintenance || policy.paused || model !in policy.models {
        Leave(task);
      } else {
        Scan(task, model, prewarm, listing, giveUp);
      }
    }

    /** The body of the loop after its awaits: what the answers mean for the reserved row. */
    method JudgeRow(model: Id, row: Row, reply: Reply<Truth>, now: int) returns (verdict: Verdict)
      ensures verdict == Judge(cfg, View(), model, row, reply, now)
    {
      if reply.Cancelled? || (reply.Err? && reply.failure.code.Admission?) {
        return Quit;
      }
      if reply.Err? || !ValidTruth(cfg.wallet, row, reply.value) {
        return Skip(Some(MarkError(row.(state := Quarantined), now)));
      }
      if row.id !in rows || !rows[row.id].state.Open? {
        return Skip(None);
      }
      var truth, latest := reply.value, rows[row.id];
      if truth.closedAt != 0 {
        return Skip(Some(latest.(state := Closed)));
      }
      if truth.endsAt <= now + cfg.requestTimeout + 15 {
        return Skip(Some(latest.(state := Draining)));
      }
      if policy.paused || maintenance || model !in policy.models || !Permits(policy, latest.provider) {
        return Quit;
      }
      return Grant(latest.(lastUsed := now, endsAt := truth.endsAt));
    }

    method AcquireVerify(task: Id, reply: Reply<Truth>, now: int, giveUp: bool)
      requires task in borrowers && borrowers[task].Verifying?
      modifies `rows, `active, `waiting, `borrowers
      ensures View() == P.AcquireVerify(cfg, old(View()), task, reply, now, giveUp)
    {
      var Verifying(model, prewarm, row, rest) := borrowers[task];
      var verdict := JudgeRow(model, row, reply, now);
      if verdict.Grant? && !prewarm {
        rows := rows[verdict.row.id := verdict.row];
        if waiting > 0 {
          waiting := waiting - 1;
        }
        borrowers := borrowers[task := Leased(row.id)];
        return;
      }
      active := active - {row.id};
      match verdict {
        case Quit =>
          Leave(task);
        case Skip(write) =>
          if write.Some? {
            rows := rows[write.value.id := write.value];
          }
          Scan(task, model, prewarm, rest, giveUp);
        case Grant(granted) =>
          rows := rows[granted.id := granted];
          Leave(task);
      }
    }

    method Release(task: Id, now: int)
      requires task in borrowers && borrowers[task].Leased?
      modifies `rows, `active, `borrowers
      ensures View() == P.Release(old(View()), task, now)
    {
      var id := borrowers[task].id;
      active := active - {id};
      borrowers := borrowers - {task};
      if id in rows {
        var current := rows[id].(lastUsed := now);
        rows := rows[current.id := current];
      }
    }

    method Invalidate(task: Id)
      requires task in borrowers && borrowers[task].Leased?
      modifies `rows
      ensures View() == P.Invalidate(old(View()), task)
    {
      var id := borrowers[task].id;
      if id in rows {
        var current := rows[id];
        if !current.state.Closed? && !current.state.Closing? && !current.state.ClosePending? {
          current := current.(state := Draining);
          rows := rows[current.id := current];
        }
      }
    }

    // -------------------------------------------------------------- node restart and process start

    method RestartRequest(op: Id, immediate: bool, now: int)
      modifies `ops, `maintenance, `restarting
      ensures View() == P.RestartRequest(old(View()), op, immediate, now)
    {
      if maintenance {
        return;
      }
      maintenance := true;
      ops := ops[op := Op(op, NodeRestart, Queued, now, [])];
      restarting := DrainingRequests(op, immediate);
    }

    method SetOpState(id: Id, state: OpState)
      modifies `ops
      ensures View() == P.SetOpState(old(View()), id, state)
    {
      if id in ops {
        ops := ops[ops[id].id := ops[id].(state := state)];
      }
    }

    method RestartPoll()
      requires restarting.DrainingRequests?
      modifies `ops, `restarting
      ensures View() == P.RestartPoll(old(View()))
    {
      SetOpState(restarting.op, OpDraining);
      if active == {} || restarting.immediate {
        restarting := AwaitingLock(restarting.op, restarting.immediate);
      }
    }

    method RestartLock()
      requires restarting.AwaitingLock? && lock.Free?
      modifies `ops, `lock, `restarting
      ensures View() == P.RestartLock(old(View()))
    {
      lock := RestartHolding;
      SetOpState(restarting.op, Restarting);
      restarting := HelperCalled(restarting.op, restarting.immediate);
    }

    method RestartEnd(ok: bool)
      requires restarting.HelperCalled?
      modifies `ops, `lock, `restarting, `maintenance
      ensures View() == P.RestartEnd(old(View()), ok)
    {
      lock := Free;
      SetOpState(restarting.op, if ok then Succeeded else OpFailed);
      restarting := NoRestart;
      maintenance := false;
    }

    // -------------------------------------------------------------- rebalance

    /** The loop over the sorted rows; `order` is what the sort returned. */
    method Rebalance(order: seq<Row>)
      requires IsOrder(rows, active, order)
      modifies `rows
      ensures View() == P.Drain(old(View()), Dropped(order, policy))
    {
      var counts: map<Id, nat>, total: nat := map[], 0;
      LoopStarts(rows, active, order, policy);
      for n := 0 to |order|
        invariant LoopAt(old(rows), order, policy, n, rows, total, counts)
      {
        var row := order[n];
        var count := if row.model in counts then counts[row.model] else 0;
        if !row.state.Open? {
          LoopSkips(old(rows), order, policy, n, rows, total, counts);
        } else if row.model !in policy.models || !Permits(policy, row.provider)
                  || total >= policy.maxSessions || count >= policy.models[row.model] {
          LoopDrains(old(rows), order, policy, n, rows, total, counts);
          rows := rows[row.id := row.(state := Draining)];
        } else {
          LoopKeeps(old(rows), order, policy, n, rows, total, counts);
          total := total + 1;
          counts := counts[row.model := count + 1];
        }
      }
      assert order[..|order|] == order;
    }

    /** First loop of `recover`. */
    method RecoverRows()
      modifies `rows
      ensures rows == map id | id in old(rows) :: RecoverRow(old(rows)[id])
    {
      var todo, recovered := rows.Keys, map[];
      while todo != {}
        invariant todo <= rows.Keys && recovered.Keys == rows.Keys - todo
        invariant forall id :: id in recovered ==> recovered[id] == RecoverRow(rows[id])
        decreases |todo|
      {
        var id :| id in todo;
        recovered := recovered[id := RecoverRow(rows[id])];
        todo := todo - {id};
      }
      rows := recovered;
    }

    /** Second loop of `recover`. */
    method RecoverOps(helperDone: set<Id>)
      modifies `ops
      ensures ops == map id | id in old(ops) :: RecoverOp(old(ops)[id], id in helperDone)
    {
      var todo, resumed := ops.Keys, map[];
      while todo != {}
        invariant todo <= ops.Keys && resumed.Keys == ops.Keys - todo
        invariant forall id :: id in resumed ==> resumed[id] == RecoverOp(ops[id], id in helperDone)
        decreases |todo|
      {
        var id :| id in todo;
        resumed := resumed[id := RecoverOp(ops[id], id in helperDone)];
        todo := todo - {id};
      }
      ops := resumed;
    }

    /** A new process starts with no lock held and nothing in memory. */
    method ForgetMemory()
      modifies `lock, `active, `waiting, `maintenance, `borrowers, `restarting
      ensures lock == Free && View().mem == FRESH_MEMORY
    {
      lock, active, waiting, maintenance, borrowers, restarting := Free, {}, 0, false, map[], NoRestart;
    }

    /** Process start over the surviving store, on fresh memory. */
    method Recover(helperDone: set<Id>)
      modifies this
      ensures View() == P.Reboot(old(View()), helperDone)
    {
      ForgetMemory();
      RecoverRows();
      RecoverOps(helperDone);
      assert rows == P.Reboot(old(View()), helperDone).rows;
      assert ops == P.Reboot(old(View()), helperDone).ops;
    }
  }
}
