/**
 What stays on record: when rows and operations may disappear, how a restart is reported, and how long the intent
 to close a session is kept.
 */
module RecordsKept {
  import opened Options
  import opened SessionRows
  import opened Protocol
  import opened WalletSafety
  import opened WithdrawalOutcome
  import Leases

  // ---------------------------------------------------------------- when a record disappears

  lemma BorrowKeepsRecords(cfg: Config, s: State, step: BorrowStep)
    requires CanBorrow(s, step)
    ensures var t := ApplyBorrow(cfg, s, step); s.rows.Keys <= t.rows.Keys && t.ops == s.ops
  {
    match step
    case PassAcquire(task, listing, giveUp) =>
      var Waiting(model, prewarm) := s.mem.borrowers[task];
      ScanFrame(s, task, model, prewarm, listing, giveUp);
    case VerifyAcquire(task, read, now, giveUp) => VerifyFrame(cfg, s, task, read, now, giveUp);
    case _ =>
  }

  lemma OpenKeepsRecords(cfg: Config, s: State, step: OpenStep)
    requires CanOpen(s, step)
    ensures var t := ApplyOpen(cfg, s, step); s.rows.Keys <= t.rows.Keys && t.ops == s.ops
  {
  }

  lemma CloseKeepsRecords(cfg: Config, s: State, step: CloseStep)
    requires CanClose(s, step)
    ensures var t := ApplyClose(cfg, s, step); s.rows.Keys <= t.rows.Keys && t.ops == s.ops
  {
  }

  lemma TreasuryKeepsRecords(s: State, step: TreasuryStep)
    requires CanWithdraw(s, step)
    ensures var t := ApplyTreasury(s, step); s.rows.Keys <= t.rows.Keys && s.ops.Keys <= t.ops.Keys
  {
  }

  lemma RestartKeepsRecords(s: State, step: RestartStep)
    requires CanRestart(s, step)
    ensures var t := ApplyRestart(s, step); s.rows.Keys <= t.rows.Keys && s.ops.Keys <= t.ops.Keys
  {
  }

  /**
   A session row disappears in a step if and only if the step prunes and the row is an old one that closed or
   failed; an operation, if and only if it is an old one that ended.
   */
  lemma DisappearsIff(cfg: Config, s: State, step: Step, id: Id)
    requires Enabled(s, step)
    ensures var t := Apply(cfg, s, step);
            && (id in s.rows && id !in t.rows <==>
                  && step.Tends? && step.u.PruneStore? && id in s.rows && s.rows[id].createdAt < step.u.cutoff
                  && (s.rows[id].state.Closed? || s.rows[id].state.Failed?))
            && (id in s.ops && id !in t.ops <==>
                  && step.Tends? && step.u.PruneStore? && id in s.ops && s.ops[id].createdAt < step.u.cutoff
                  && (s.ops[id].state.Succeeded? || s.ops[id].state.OpFailed? || s.ops[id].state.Interrupted?))
  {
    match step
    case Opens(o) => OpenKeepsRecords(cfg, s, o);
    case Closes(c) => CloseKeepsRecords(cfg, s, c);
    case Borrows(b) => BorrowKeepsRecords(cfg, s, b);
    case Withdraws(w) => TreasuryKeepsRecords(s, w);
    case Restarts(x) => RestartKeepsRecords(s, x);
    case _ =>
  }

  // ---------------------------------------------------------------- no submission without its task

  /** A row in opening or closing is in the hands of the task that submitted it, which still awaits the node. */
  ghost predicate Attended(s: State) {
    && (forall id :: id in s.rows && s.rows[id].state.Opening? ==>
          (s.lock.OpenSubmitted? || s.lock.OpenConfirming?) && s.lock.row.id == id)
    && (forall id :: id in s.rows && s.rows[id].state.Closing? ==> s.lock.CloseSubmitted? && s.lock.row.id == id)
    && match s.lock
       case OpenSubmitted(_, _, row) => row.state.Opening?
       case OpenConfirming(_, _, row) => row.state.Opening?
       case CloseReading(row) => !row.state.Opening? && !row.state.Closing?
       case CloseSubmitted(row) => row.state.Closing?
       case CloseConfirming(row) => row.state.ClosePending?
       case _ => true
  }

  /** One row is written, by a task whose lock stays or goes with it. */
  lemma WriteKeepsAttended(s: State, t: State, row: Row)
    requires Keyed(s) && Attended(s) && t.rows == s.rows[row.id := row] && !row.state.Opening? && !row.state.Closing?
    requires t.lock == s.lock || ((Held(s.lock).None? || Held(s.lock) == Some(row.id)) && Held(t.lock).None? && !t.lock.CloseReading? && !t.lock.CloseConfirming?)
    ensures Attended(t)
  {
  }

  /** The row that the lock holder has submitted. */
  function Held(lock: Holder): Option<Id> {
    match lock
    case OpenSubmitted(_, _, row) => Some(row.id)
    case OpenConfirming(_, _, row) => Some(row.id)
    case CloseSubmitted(row) => Some(row.id)
    case _ => None
  }

  lemma OpenErrorAttended(s: State, model: Id, attempt: nat, row: Row, failure: Failure, now: int)
    requires Keyed(s) && Attended(s) && Held(s.lock) == Some(row.id)
    ensures Attended(OpenError(s, model, attempt, row, failure, now))
  {
    var t := OpenError(s, model, attempt, row, failure, now);
    WriteKeepsAttended(s, t, t.rows[row.id]);
  }

  lemma OpenReplyAttended(s: State, answered: Reply<OpenAnswer>, now: int)
    requires Keyed(s) && Attended(s) && s.lock.OpenSubmitted?
    ensures Attended(OpenReply(s, answered, now))
  {
    var OpenSubmitted(model, attempt, row) := s.lock;
    match answered
    case Ok(answer) =>
      if answer.sessionId.None? {
        OpenErrorAttended(s, model, attempt, row, PROTOCOL_ERROR, now);
      }
    case Err(failure) => OpenErrorAttended(s, model, attempt, row, failure, now);
    case Cancelled => WriteKeepsAttended(s, OpenReply(s, answered, now), row.(state := OpenUnknown));
  }

  lemma OpenConfirmAttended(cfg: Config, s: State, read: Reply<Truth>, now: int)
    requires Keyed(s) && Attended(s) && s.lock.OpenConfirming?
    ensures Attended(OpenConfirm(cfg, s, read, now))
  {
    var OpenConfirming(model, attempt, row) := s.lock;
    var t := OpenConfirm(cfg, s, read, now);
    match read
    case Ok(truth) =>
      if ValidTruth(cfg.wallet, row, truth) {
        WriteKeepsAttended(s, t, t.rows[row.id]);
      } else {
        OpenErrorAttended(s, model, attempt, row, PROTOCOL_ERROR, now);
      }
    case Err(failure) => OpenErrorAttended(s, model, attempt, row, failure, now);
    case Cancelled => WriteKeepsAttended(s, t, t.rows[row.id]);
  }

  lemma OpenKeepsAttended(cfg: Config, s: State, step: OpenStep)
    requires Keyed(s) && Attended(s) && CanOpen(s, step)
    ensures Attended(ApplyOpen(cfg, s, step))
  {
    match step
    case ReplyOpen(answered, now) => OpenReplyAttended(s, answered, now);
    case ConfirmOpen(read, now) => OpenConfirmAttended(cfg, s, read, now);
    case _ =>
  }

  lemma CloseReadAttended(cfg: Config, s: State, read: Reply<Truth>, newId: Id, now: int)
    requires Keyed(s) && Attended(s) && s.lock.CloseReading?
    ensures Attended(CloseRead(cfg, s, read, newId, now))
  {
    var t := CloseRead(cfg, s, read, newId, now);
    if t.lock.Free? && !read.Cancelled? {
      WriteKeepsAttended(s, t, t.rows[s.lock.row.id]);
    }
  }

  lemma CloseReplyAttended(s: State, closed: Reply<Option<Tx>>, now: int)
    requires Keyed(s) && Attended(s) && s.lock.CloseSubmitted?
    ensures Attended(CloseReply(s, closed, now))
  {
    var t := CloseReply(s, closed, now);
    if !closed.Ok? {
      WriteKeepsAttended(s, t, t.rows[s.lock.row.id]);
    }
  }

  lemma CloseConfirmAttended(cfg: Config, s: State, read: Reply<Truth>, now: int)
    requires Keyed(s) && Attended(s) && s.lock.CloseConfirming?
    ensures Attended(CloseConfirm(cfg, s, read, now))
  {
    var t := CloseConfirm(cfg, s, read, now);
    if t.rows != s.rows {
      WriteKeepsAttended(s, t, t.rows[s.lock.row.id]);
    }
  }

  lemma CloseKeepsAttended(cfg: Config, s: State, step: CloseStep)
    requires Keyed(s) && Attended(s) && CanClose(s, step)
    ensures Attended(ApplyClose(cfg, s, step))
  {
    match step
    case BeginClose(_) =>
    case CheckClose(_, _) =>
    case SubmitClose(read, newId, now) => CloseReadAttended(cfg, s, read, newId, now);
    case ReplyClose(closed, now) => CloseReplyAttended(s, closed, now);
    case ConfirmClose(read, now) => CloseConfirmAttended(cfg, s, read, now);
  }

  lemma TreasuryKeepsAttended(s: State, step: TreasuryStep)
    requires Attended(s) && CanWithdraw(s, step)
    ensures Attended(ApplyTreasury(s, step))
  {
  }

  /** A row is written whose state stays, or is neither of the two. */
  lemma TouchKeepsAttended(s: State, t: State, row: Row)
    requires Keyed(s) && Attended(s) && t == s.(rows := t.rows, mem := t.mem)
    requires t.rows == s.rows || t.rows == s.rows[row.id := row]
    requires t.rows != s.rows && (row.state.Opening? || row.state.Closing?) ==>
               row.id in s.rows && s.rows[row.id].state == row.state
    ensures Attended(t)
  {
  }

  const NO_ROW := Row(0, Failed, None, 0, 0, 0, 0, 0, 0, 0, 0, 0, [], None, [], None, {})

  function StoredRow(t: State, id: Id): Row {
    if id in t.rows then t.rows[id] else NO_ROW
  }

  lemma ReconcileKeepsAttended(cfg: Config, s: State, step: ReconcileStep)
    requires Keyed(s) && Attended(s)
    ensures Attended(ApplyReconcile(cfg, s, step))
  {
    hide Attended;
    var t := ApplyReconcile(cfg, s, step);
    var id := match step
      case FromJournal(snapshot, _, _) => snapshot.id
      case FromTruth(snapshot, _, _, _) => snapshot.id
      case FromReceipts(x, _, _) => x
      case BindSession(x, _, _) => x
      case NoteCandidate(x, _, _) => x
      case AdoptSession(x, _, _, _) => x;
    TouchKeepsAttended(s, t, StoredRow(t, id));
  }

  lemma BorrowKeepsAttended(cfg: Config, s: State, step: BorrowStep)
    requires Keyed(s) && Attended(s) && CanBorrow(s, step)
    ensures Attended(ApplyBorrow(cfg, s, step))
  {
    hide Attended;
    var t := ApplyBorrow(cfg, s, step);
    match step
    case BeginAcquire(_, _, _) => TouchKeepsAttended(s, t, NO_ROW);
    case PassAcquire(task, listing, giveUp) =>
      var Waiting(model, prewarm) := s.mem.borrowers[task];
      ScanFrame(s, task, model, prewarm, listing, giveUp);
      TouchKeepsAttended(s, t, NO_ROW);
    case VerifyAcquire(task, read, now, giveUp) =>
      VerifyFrame(cfg, s, task, read, now, giveUp);
      var Verifying(model, _, row, _) := s.mem.borrowers[task];
      var write := WalletSafety.Written(Judge(cfg, s, model, row, read, now));
      hide Judge;
      hide AcquireVerify;
      TouchKeepsAttended(s, t, if write.Some? then write.value else NO_ROW);
    case AbandonAcquire(_) => TouchKeepsAttended(s, t, NO_ROW);
    case ReleaseLease(task, _) => TouchKeepsAttended(s, t, StoredRow(t, s.mem.borrowers[task].id));
    case InvalidateLease(task) => TouchKeepsAttended(s, t, StoredRow(t, s.mem.borrowers[task].id));
  }

  lemma RestartKeepsAttended(s: State, step: RestartStep)
    requires Leases.RestartInv(s) && Attended(s) && CanRestart(s, step)
    ensures Attended(ApplyRestart(s, step))
  {
  }

  lemma UpkeepKeepsAttended(s: State, step: UpkeepStep)
    requires Attended(s)
    ensures Attended(ApplyUpkeep(s, step))
  {
  }

  lemma StepKeepsAttended(cfg: Config, s: State, step: Step)
    requires Leases.RestartInv(s) && Keyed(s) && Attended(s) && Enabled(s, step)
    ensures Attended(Apply(cfg, s, step))
  {
    hide Attended;
    match step
    case Opens(o) => OpenKeepsAttended(cfg, s, o);
    case Closes(c) => CloseKeepsAttended(cfg, s, c);
    case Withdraws(w) => TreasuryKeepsAttended(s, w);
    case Reconciles(r) => ReconcileKeepsAttended(cfg, s, r);
    case Borrows(b) => BorrowKeepsAttended(cfg, s, b);
    case Tends(u) => UpkeepKeepsAttended(s, u);
    case Restarts(x) => RestartKeepsAttended(s, x);
  }

  /** In every run, crashes included: no row is left in opening or closing by a task that is gone. */
  lemma {:induction false} SubmissionsAttended(cfg: Config, s: State, steps: seq<Step>, t: State)
    requires Leases.Inv(s) && Attended(s) && Run(cfg, s, steps, t)
    ensures Attended(t)
    decreases |steps|
  {
    if steps != [] {
      StepKeepsAttended(cfg, s, steps[0]);
      Leases.StepKeepsInv(cfg, s, steps[0]);
      SubmissionsAttended(cfg, Apply(cfg, s, steps[0]), steps[1..], t);
    }
  }

  /** What a new process makes of the store: submissions that were under way are uncertain, nothing else changes. */
  lemma CrashLeaves(s: State, helperDone: set<Id>)
    ensures var t := Reboot(s, helperDone);
            && t.rows.Keys == s.rows.Keys && t.ops.Keys == s.ops.Keys && t.policy == s.policy && t.calls == s.calls
            && t.lock.Free? && t.mem == FRESH_MEMORY
            && (forall id :: id in s.rows ==>
                  t.rows[id] == s.rows[id].(state := if s.rows[id].state.Opening? then OpenUnknown
                                                     else if s.rows[id].state.Closing? then ClosePending
                                                     else s.rows[id].state))
  {
  }

  // ---------------------------------------------------------------- how a restart is reported

  /** A restart that has not been reported as ended. */
  predicate Unreported(op: Op) {
    op.kind.NodeRestart? && (op.state.Queued? || op.state.OpDraining? || op.state.Restarting? || op.state.Interrupted?)
  }

  /** The helper finished it: it said so to this process, or to the next one. */
  predicate HelperFinished(s: State, step: Step, id: Id) {
    match step
    case Restarts(EndRestart(ok)) => ok && s.mem.restart.HelperCalled? && s.mem.restart.op == id
    case Restarts(CrashAndStart(done)) => id in done
    case _ => false
  }

  /** It was given up. */
  predicate RestartFails(s: State, step: Step, id: Id) {
    match step
    case Restarts(EndRestart(ok)) => !ok && s.mem.restart.HelperCalled? && s.mem.restart.op == id
    case Restarts(TimeoutRestart) => !s.mem.restart.NoRestart? && s.mem.restart.op == id
    case _ => false
  }

  lemma TreasuryReports(cfg: Config, s: State, step: TreasuryStep, id: Id)
    requires OpsInv(s) && CanWithdraw(s, step) && id in s.ops && s.ops[id].kind.NodeRestart?
    ensures var t := ApplyTreasury(s, step); id in t.ops && t.ops[id] == s.ops[id]
  {
  }

  lemma RestartReports(cfg: Config, s: State, step: RestartStep, id: Id)
    requires OpsInv(s) && CanRestart(s, step) && id in s.ops && Unreported(s.ops[id])
    ensures var t := ApplyRestart(s, step);
            && id in t.ops
            && (t.ops[id].state.Succeeded? <==> HelperFinished(s, Restarts(step), id))
            && (t.ops[id].state.OpFailed? <==> RestartFails(s, Restarts(step), id))
            && (step.CrashAndStart? && id !in step.helperDone ==> t.ops[id].state.Interrupted?)
  {
  }

  /**
   A restart is reported as succeeded if and only if the helper finished it, as failed if and only if it was given
   up; a crash leaves it interrupted, unless the helper says it was finished.
   */
  lemma ReportedIff(cfg: Config, s: State, step: Step, id: Id)
    requires OpsInv(s) && Enabled(s, step) && id in s.ops && Unreported(s.ops[id]) && id in Apply(cfg, s, step).ops
    ensures var t := Apply(cfg, s, step);
            && (t.ops[id].state.Succeeded? <==> HelperFinished(s, step, id))
            && (t.ops[id].state.OpFailed? <==> RestartFails(s, step, id))
            && (step.Restarts? && step.x.CrashAndStart? && id !in step.x.helperDone ==> t.ops[id].state.Interrupted?)
  {
    match step
    case Opens(o) => OpenKeepsRecords(cfg, s, o);
    case Closes(c) => CloseKeepsRecords(cfg, s, c);
    case Withdraws(w) => TreasuryReports(cfg, s, w, id);
    case Borrows(b) => BorrowKeepsRecords(cfg, s, b);
    case Restarts(x) => RestartReports(cfg, s, x, id);
    case _ =>
  }

  /** The store does not report the restart as succeeded. */
  predicate NotReported(s: State, id: Id) {
    id in s.ops && s.ops[id].kind.NodeRestart? ==> !s.ops[id].state.Succeeded?
  }

  lemma StepReportsNothing(cfg: Config, s: State, step: Step, id: Id)
    requires OpsInv(s) && Enabled(s, step) && NotReported(s, id) && !HelperFinished(s, step, id)
    ensures NotReported(Apply(cfg, s, step), id)
  {
    match step
    case Opens(o) => OpenKeepsRecords(cfg, s, o);
    case Closes(c) => CloseKeepsRecords(cfg, s, c);
    case Withdraws(w) =>
      if id in s.ops && s.ops[id].kind.NodeRestart? {
        TreasuryReports(cfg, s, w, id);
      } else {
        TreasuryMakesNoRestart(s, w, id);
      }
    case Borrows(b) => BorrowKeepsRecords(cfg, s, b);
    case _ =>
  }

  lemma TreasuryMakesNoRestart(s: State, step: TreasuryStep, id: Id)
    requires OpsInv(s) && CanWithdraw(s, step) && !(id in s.ops && s.ops[id].kind.NodeRestart?)
    ensures var t := ApplyTreasury(s, step); !(id in t.ops && t.ops[id].kind.NodeRestart?)
  {
  }

  ghost predicate NeverFinished(cfg: Config, s: State, steps: seq<Step>, id: Id)
    decreases |steps|
  {
    steps != [] && Enabled(s, steps[0]) ==>
      !HelperFinished(s, steps[0], id) && NeverFinished(cfg, Apply(cfg, s, steps[0]), steps[1..], id)
  }

  /** Over any run, crashes and pruning included: no restart is reported as succeeded that the helper did not finish. */
  lemma {:induction false} NeverReportedEarly(cfg: Config, s: State, steps: seq<Step>, t: State, id: Id)
    requires OpsInv(s) && Run(cfg, s, steps, t) && NotReported(s, id) && NeverFinished(cfg, s, steps, id)
    ensures NotReported(t, id)
    decreases |steps|
  {
    if steps != [] {
      StepReportsNothing(cfg, s, steps[0], id);
      StepKeepsOpsInv(cfg, s, steps[0]);
      NeverReportedEarly(cfg, Apply(cfg, s, steps[0]), steps[1..], t, id);
    }
  }

  // ---------------------------------------------------------------- the intent to close

  /** Asked to be closed, or not wanted any more: not lent again, and waiting for its close. */
  predicate ToBeClosed(s: State, id: Id) {
    id in s.rows && s.rows[id].state.Draining?
  }

  /** A request makes an open, quarantined or orphaned session one to be closed, and changes nothing else. */
  lemma RequestCounts(s: State, id: Id)
    requires Keyed(s)
    ensures var t := CloseRequest(s, id);
            if id in s.rows && (s.rows[id].state.Open? || s.rows[id].state.Quarantined? || s.rows[id].state.Orphaned?)
            then t == s.(rows := s.rows[id := s.rows[id].(state := Draining)])
            else t == s
  {
  }

  /**
   A close is taken up if and only if its session has not ended, has no close under way, is in nobody's hands and
   is known to the chain; a session in somebody's hands is kept as one to be closed.
   */
  lemma TakenUpIff(s: State, now: int)
    requires Keyed(s) && s.lock.CloseChecking? && s.lock.id in s.rows
    ensures var id, row := s.lock.id, s.rows[s.lock.id];
            var pending := !row.state.Closed? && !row.state.Failed? && !row.state.Closing? && !row.state.ClosePending?;
            var t := CloseCheck(s, Ok(()), now);
            if pending && id in s.mem.active then t == s.(lock := Free, rows := s.rows[id := row.(state := Draining)])
            else if pending && row.chainId.Some? then t == s.(lock := CloseReading(row))
            else t == s.(lock := Free)
  {
  }

  /** Rebalancing and expiry ask for the open sessions among those named, and for no others. */
  lemma DrainCounts(s: State, ids: set<Id>)
    ensures var t := Drain(s, ids);
            && t == s.(rows := t.rows) && t.rows.Keys == s.rows.Keys
            && forall id :: id in s.rows ==>
                 t.rows[id] == (if id in ids && s.rows[id].state.Open? then s.rows[id].(state := Draining) else s.rows[id])
  {
  }

  /** So does giving back a session as unusable, whatever its state, unless it is closed or being closed. */
  lemma InvalidationCounts(s: State, task: Id)
    requires Keyed(s) && task in s.mem.borrowers && s.mem.borrowers[task].Leased?
    ensures var id := s.mem.borrowers[task].id;
            var t := Invalidate(s, task);
            if id !in s.rows || s.rows[id].state.Closed? || s.rows[id].state.Closing? || s.rows[id].state.ClosePending? then t == s
            else t == s.(rows := s.rows[id := s.rows[id].(state := Draining)])
  {
  }

  /** A session given back is used at that time; nothing else about it changes. */
  lemma ReleaseCounts(s: State, task: Id, now: int)
    requires Keyed(s) && task in s.mem.borrowers && s.mem.borrowers[task].Leased?
    ensures var id := s.mem.borrowers[task].id;
            var t := Release(s, task, now);
            && task !in t.mem.borrowers && id !in t.mem.active
            && t.rows == (if id in s.rows then s.rows[id := s.rows[id].(lastUsed := now)] else s.rows)
  {
  }

  /** How a session to be closed may leave that state: by its close, by the chain, or by a copy taken before. */
  ghost predicate IntentEnds(cfg: Config, s: State, step: Step, id: Id) {
    match step
    case Closes(SubmitClose(_, _, _)) => s.lock.CloseReading? && s.lock.row.id == id
    case Closes(ReplyClose(_, _)) => s.lock.CloseSubmitted? && s.lock.row.id == id
    case Closes(ConfirmClose(_, _)) => s.lock.CloseConfirming? && s.lock.row.id == id
    case Opens(ReplyOpen(_, _)) => s.lock.OpenSubmitted? && s.lock.row.id == id
    case Opens(ConfirmOpen(_, _)) => s.lock.OpenConfirming? && s.lock.row.id == id
    case Reconciles(FromTruth(snapshot, read, _, _)) => snapshot.id == id && read.Ok? && read.value.closedAt != 0
    case Borrows(VerifyAcquire(task, _, _, _)) =>
      task in s.mem.borrowers && s.mem.borrowers[task].Verifying? && s.mem.borrowers[task].row.id == id
    case _ => false
  }

  lemma OpenKeepsIntent(cfg: Config, s: State, step: OpenStep, id: Id)
    requires Keyed(s) && ToBeClosed(s, id) && CanOpen(s, step) && !IntentEnds(cfg, s, Opens(step), id)
    ensures ToBeClosed(ApplyOpen(cfg, s, step), id)
  {
  }

  lemma CloseKeepsIntent(cfg: Config, s: State, step: CloseStep, id: Id)
    requires Keyed(s) && ToBeClosed(s, id) && CanClose(s, step) && !IntentEnds(cfg, s, Closes(step), id)
    ensures ToBeClosed(ApplyClose(cfg, s, step), id)
  {
  }

  lemma ReconcileKeepsIntent(cfg: Config, s: State, step: ReconcileStep, id: Id)
    requires Keyed(s) && ToBeClosed(s, id) && !IntentEnds(cfg, s, Reconciles(step), id)
    ensures ToBeClosed(ApplyReconcile(cfg, s, step), id)
  {
  }

  lemma BorrowKeepsIntent(cfg: Config, s: State, step: BorrowStep, id: Id)
    requires Keyed(s) && ToBeClosed(s, id) && CanBorrow(s, step) && !IntentEnds(cfg, s, Borrows(step), id)
    ensures ToBeClosed(ApplyBorrow(cfg, s, step), id)
  {
    match step
    case PassAcquire(task, listing, giveUp) =>
      var Waiting(model, prewarm) := s.mem.borrowers[task];
      ScanFrame(s, task, model, prewarm, listing, giveUp);
    case VerifyAcquire(task, read, now, giveUp) => VerifyFrame(cfg, s, task, read, now, giveUp);
    case _ =>
  }

  /** Otherwise it stays one, through every other task, policy change, pruning and crash. */
  lemma IntentKept(cfg: Config, s: State, step: Step, id: Id)
    requires Keyed(s) && ToBeClosed(s, id) && Enabled(s, step) && !IntentEnds(cfg, s, step, id)
    ensures ToBeClosed(Apply(cfg, s, step), id)
  {
    match step
    case Opens(o) => OpenKeepsIntent(cfg, s, o, id);
    case Closes(c) => CloseKeepsIntent(cfg, s, c, id);
    case Reconciles(r) => ReconcileKeepsIntent(cfg, s, r, id);
    case Borrows(b) => BorrowKeepsIntent(cfg, s, b, id);
    case _ =>
  }
}
