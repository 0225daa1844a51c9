/**
 Which chain ids rows carry.

 `carried` is history: every pair of a row id and a chain id that the store ever held.  A row without a chain id
 never had one, and only an opening whose outcome is open or that failed is without one.
 */
module Identity {
  import opened Options
  import opened SessionRows
  import opened Protocol
  import Leases

  type Carried = set<(Id, Id)>

  ghost predicate Named(carried: Carried, id: Id) {
    exists c :: (id, c) in carried
  }

  /** Only openings lack a chain id. */
  predicate Shaped(row: Row) {
    row.chainId.None? ==> row.state.Opening? || row.state.OpenUnknown? || row.state.Failed?
  }

  predicate Listed(carried: Carried, row: Row) {
    row.chainId.Some? && (row.id, row.chainId.value) in carried
  }

  ghost predicate RowKnown(carried: Carried, row: Row) {
    Shaped(row) && if row.chainId.Some? then Listed(carried, row) else !Named(carried, row.id)
  }

  ghost predicate RowsKnown(carried: Carried, rows: map<Id, Row>) {
    forall id :: id in rows ==> rows[id].id == id && RowKnown(carried, rows[id])
  }

  /** The stored row of an open that is being submitted is still the one that was written. */
  ghost predicate HolderKnown(carried: Carried, rows: map<Id, Row>, lock: Holder) {
    match lock
    case OpenSubmitted(_, _, row) =>
      && row.chainId.None? && !Named(carried, row.id) && row.state.Opening?
      && row.id in rows && rows[row.id].state.Opening? && rows[row.id].chainId.None?
    case OpenConfirming(_, _, row) => Listed(carried, row)
    case CloseReading(row) => Listed(carried, row)
    case CloseSubmitted(row) => Listed(carried, row)
    case CloseConfirming(row) => Listed(carried, row)
    case _ => true
  }

  /** Copies that a borrower may write carry their chain id; what it leases has had one. */
  ghost predicate BorrowerKnown(carried: Carried, b: Borrower) {
    match b
    case Waiting(_, _) => true
    case Verifying(_, _, row, rest) =>
      Listed(carried, row) && forall i :: 0 <= i < |rest| && rest[i].state.Open? ==> Listed(carried, rest[i])
    case Leased(id) => Named(carried, id)
  }

  ghost predicate BorrowersKnown(carried: Carried, borrowers: map<Id, Borrower>) {
    forall t :: t in borrowers ==> BorrowerKnown(carried, borrowers[t])
  }

  ghost predicate Known(s: State, carried: Carried) {
    && RowsKnown(carried, s.rows)
    && HolderKnown(carried, s.rows, s.lock)
    && BorrowersKnown(carried, s.mem.borrowers)
  }

  /** The pairs that a store holds. */
  function Pairs(rows: map<Id, Row>): Carried {
    set id | id in rows && rows[id].chainId.Some? :: (id, rows[id].chainId.value)
  }

  lemma PairOf(rows: map<Id, Row>, id: Id)
    requires id in rows && rows[id].chainId.Some?
    ensures (id, rows[id].chainId.value) in Pairs(rows)
  {
  }

  /** New operations get ids that no row with a chain id ever had. */
  ghost predicate NewIds(s: State, carried: Carried, step: Step) {
    match step
    case Opens(SubmitOpen(_, newId, _)) => !Named(carried, newId)
    case _ => true
  }

  // ---------------------------------------------------------------- growing history

  /** A row that is written keeps a chain id, or never had one. */
  ghost predicate Writable(carried: Carried, row: Row) {
    Shaped(row) && (row.chainId.None? ==> !Named(carried, row.id))
  }

  lemma RowsGrow(carried: Carried, rows: map<Id, Row>)
    requires forall id :: id in rows ==> rows[id].id == id && Writable(carried, rows[id])
    ensures RowsKnown(carried + Pairs(rows), rows)
  {
  }

  lemma BorrowersGrow(carried: Carried, more: Carried, borrowers: map<Id, Borrower>)
    requires BorrowersKnown(carried, borrowers)
    ensures BorrowersKnown(carried + more, borrowers)
  {
    forall t | t in borrowers ensures BorrowerKnown(carried + more, borrowers[t]) {
      assert BorrowerKnown(carried, borrowers[t]);
      if borrowers[t].Leased? {
        var c :| (borrowers[t].id, c) in carried;
        assert (borrowers[t].id, c) in carried + more;
      }
    }
  }

  /** One row is written, or none; the lock may change hands. */
  lemma WriteKnown(s: State, carried: Carried, t: State, row: Row)
    requires Known(s, carried) && t.mem == s.mem && Writable(carried, row)
    requires t.rows == s.rows || t.rows == s.rows[row.id := row]
    requires HolderKnown(carried + Pairs(t.rows), t.rows, t.lock)
    ensures Known(t, carried + Pairs(t.rows))
  {
    RowsGrow(carried, t.rows);
    BorrowersGrow(carried, Pairs(t.rows), s.mem.borrowers);
  }

  /** The lock holder's part survives what other tasks write. */
  lemma HolderGrows(carried: Carried, rows: map<Id, Row>, rows': map<Id, Row>, lock: Holder)
    requires HolderKnown(carried, rows, lock)
    requires lock.OpenSubmitted? ==> lock.row.id in rows' && rows'[lock.row.id] == rows[lock.row.id]
    ensures HolderKnown(carried + Pairs(rows'), rows', lock)
  {
  }

  ghost function Grown(carried: Carried, t: State): Carried {
    carried + Pairs(t.rows)
  }

  // ---------------------------------------------------------------- opens and closes

  lemma SubmitKnown(s: State, carried: Carried, quoted: Reply<Quote>, newId: Id, now: int)
    requires Known(s, carried) && s.lock.OpenQuoting? && newId !in s.rows && !Named(carried, newId)
    ensures var t := OpenSubmit(s, quoted, newId, now); Known(t, Grown(carried, t))
  {
    var t := OpenSubmit(s, quoted, newId, now);
    RowsGrow(carried, t.rows);
    BorrowersGrow(carried, Pairs(t.rows), s.mem.borrowers);
  }

  lemma ErrorKnown(s: State, carried: Carried, model: Id, attempt: nat, row: Row, failure: Failure, now: int)
    requires Known(s, carried) && Writable(carried, row)
    ensures var t := OpenError(s, model, attempt, row, failure, now); Known(t, Grown(carried, t))
  {
    var t := OpenError(s, model, attempt, row, failure, now);
    WriteKnown(s, carried, t, t.rows[row.id]);
  }

  lemma ReplyKnown(s: State, carried: Carried, answered: Reply<OpenAnswer>, now: int)
    requires Known(s, carried) && s.lock.OpenSubmitted?
    ensures var t := OpenReply(s, answered, now); Known(t, Grown(carried, t))
  {
    var OpenSubmitted(model, attempt, row) := s.lock;
    var t := OpenReply(s, answered, now);
    match answered
    case Ok(answer) =>
      if answer.sessionId.None? {
        ErrorKnown(s, carried, model, attempt, row, PROTOCOL_ERROR, now);
      } else {
        PairOf(t.rows, row.id);
        WriteKnown(s, carried, t, t.rows[row.id]);
      }
    case Err(failure) => ErrorKnown(s, carried, model, attempt, row, failure, now);
    case Cancelled => WriteKnown(s, carried, t, t.rows[row.id]);
  }

  lemma ConfirmKnown(cfg: Config, s: State, carried: Carried, confirmed: Reply<Truth>, now: int)
    requires Known(s, carried) && s.lock.OpenConfirming?
    ensures var t := OpenConfirm(cfg, s, confirmed, now); Known(t, Grown(carried, t))
  {
    var OpenConfirming(model, attempt, row) := s.lock;
    var t := OpenConfirm(cfg, s, confirmed, now);
    match confirmed
    case Ok(truth) =>
      if ValidTruth(cfg.wallet, row, truth) {
        WriteKnown(s, carried, t, t.rows[row.id]);
      } else {
        ErrorKnown(s, carried, model, attempt, row, PROTOCOL_ERROR, now);
      }
    case Err(failure) => ErrorKnown(s, carried, model, attempt, row, failure, now);
    case Cancelled => WriteKnown(s, carried, t, t.rows[row.id]);
  }

  /** Steps that change no row and no borrower, and keep no copy of a row. */
  lemma IdleKnown(s: State, carried: Carried, t: State)
    requires Known(s, carried) && t.rows == s.rows && t.mem.borrowers == s.mem.borrowers
    requires t.lock == s.lock || (!t.lock.OpenSubmitted? && HolderKnown(carried, s.rows, t.lock))
    ensures Known(t, Grown(carried, t))
  {
    RowsGrow(carried, t.rows);
    BorrowersGrow(carried, Pairs(t.rows), s.mem.borrowers);
    HolderGrows(carried, s.rows, t.rows, t.lock);
  }

  lemma OpenKnown(cfg: Config, s: State, carried: Carried, step: OpenStep)
    requires Known(s, carried) && CanOpen(s, step) && NewIds(s, carried, Opens(step))
    ensures var t := ApplyOpen(cfg, s, step); Known(t, Grown(carried, t))
  {
    var t := ApplyOpen(cfg, s, step);
    match step
    case BeginOpen(_) => IdleKnown(s, carried, t);
    case CheckOpen(_, _) => IdleKnown(s, carried, t);
    case SubmitOpen(quoted, newId, now) => SubmitKnown(s, carried, quoted, newId, now);
    case ReplyOpen(answered, now) => ReplyKnown(s, carried, answered, now);
    case ConfirmOpen(confirmed, now) => ConfirmKnown(cfg, s, carried, confirmed, now);
  }

  /** A reserved session has a chain id. */
  lemma ActiveNamed(s: State, carried: Carried, id: Id)
    requires Known(s, carried) && Leases.Leasing(s) && id in s.mem.active
    ensures Named(carried, id)
  {
    var task :| Leases.OwnedBy(s.mem.borrowers, id, task);
    assert BorrowerKnown(carried, s.mem.borrowers[task]);
    if s.mem.borrowers[task].Verifying? {
      assert (id, s.mem.borrowers[task].row.chainId.value) in carried;
    }
  }

  lemma CloseCheckKnown(s: State, carried: Carried, checked: Reply<()>, now: int)
    requires Known(s, carried) && Leases.Leasing(s) && s.lock.CloseChecking?
    ensures var t := CloseCheck(s, checked, now); Known(t, Grown(carried, t))
  {
    var id := s.lock.id;
    var t := CloseCheck(s, checked, now);
    if id in s.mem.active {
      ActiveNamed(s, carried, id);
    }
    if t.rows == s.rows {
      IdleKnown(s, carried, t);
    } else {
      WriteKnown(s, carried, t, t.rows[id]);
    }
  }

  lemma CloseReadKnown(cfg: Config, s: State, carried: Carried, read: Reply<Truth>, newOp: Id, now: int)
    requires Known(s, carried) && s.lock.CloseReading?
    ensures var t := CloseRead(cfg, s, read, newOp, now); Known(t, Grown(carried, t))
  {
    var t := CloseRead(cfg, s, read, newOp, now);
    if read.Cancelled? {
      IdleKnown(s, carried, t);
    } else {
      WriteKnown(s, carried, t, t.rows[s.lock.row.id]);
    }
  }

  lemma CloseReplyKnown(s: State, carried: Carried, closed: Reply<Option<Tx>>, now: int)
    requires Known(s, carried) && s.lock.CloseSubmitted?
    ensures var t := CloseReply(s, closed, now); Known(t, Grown(carried, t))
  {
    var t := CloseReply(s, closed, now);
    WriteKnown(s, carried, t, t.rows[s.lock.row.id]);
  }

  lemma CloseConfirmKnown(cfg: Config, s: State, carried: Carried, confirmed: Reply<Truth>, now: int)
    requires Known(s, carried) && s.lock.CloseConfirming?
    ensures var t := CloseConfirm(cfg, s, confirmed, now); Known(t, Grown(carried, t))
  {
    var t := CloseConfirm(cfg, s, confirmed, now);
    if t.rows == s.rows {
      IdleKnown(s, carried, t);
    } else {
      WriteKnown(s, carried, t, t.rows[s.lock.row.id]);
    }
  }

  lemma CloseKnown(cfg: Config, s: State, carried: Carried, step: CloseStep)
    requires Known(s, carried) && Leases.Leasing(s) && CanClose(s, step)
    ensures var t := ApplyClose(cfg, s, step); Known(t, Grown(carried, t))
  {
    match step
    case BeginClose(id) => IdleKnown(s, carried, CloseBegin(s, id));
    case CheckClose(checked, now) => CloseCheckKnown(s, carried, checked, now);
    case SubmitClose(read, newId, now) => CloseReadKnown(cfg, s, carried, read, newId, now);
    case ReplyClose(closed, now) => CloseReplyKnown(s, carried, closed, now);
    case ConfirmClose(confirmed, now) => CloseConfirmKnown(cfg, s, carried, confirmed, now);
  }

  // ---------------------------------------------------------------- the other tasks

  /** A task without the lock writes one row that is not being opened. */
  lemma TouchKnown(s: State, carried: Carried, t: State, row: Row)
    requires Known(s, carried) && Writable(carried, row) && t == s.(rows := t.rows, mem := t.mem)
    requires t.rows == s.rows || t.rows == s.rows[row.id := row]
    requires t.rows != s.rows && s.lock.OpenSubmitted? ==> s.lock.row.id != row.id
    requires BorrowersKnown(carried, t.mem.borrowers)
    ensures Known(t, Grown(carried, t))
  {
    RowsGrow(carried, t.rows);
    BorrowersGrow(carried, Pairs(t.rows), t.mem.borrowers);
    HolderGrows(carried, s.rows, t.rows, s.lock);
  }

  lemma ReconcileKnown(cfg: Config, s: State, carried: Carried, step: ReconcileStep)
    requires Known(s, carried)
    ensures var t := ApplyReconcile(cfg, s, step); Known(t, Grown(carried, t))
  {
    match step
    case FromJournal(snapshot, progress, now) =>
      var t := ReconcileJournal(s, snapshot, progress, now);
      if t == s { IdleKnown(s, carried, t); } else { TouchKnown(s, carried, t, t.rows[snapshot.id]); }
    case FromTruth(snapshot, read, receipts, now) => TruthKnown(cfg, s, carried, snapshot, read, receipts, now);
    case FromReceipts(id, receipts, now) =>
      var t := ReconcileReceipts(s, id, receipts, now);
      if t == s { IdleKnown(s, carried, t); } else { TouchKnown(s, carried, t, t.rows[id]); }
    case BindSession(id, chainId, truth) =>
      var t := Bind(cfg, s, id, chainId, truth);
      if t == s { IdleKnown(s, carried, t); } else { TouchKnown(s, carried, t, t.rows[id]); }
    case NoteCandidate(id, candidate, now) =>
      var t := SweepNote(s, id, candidate, now);
      if t == s { IdleKnown(s, carried, t); } else { TouchKnown(s, carried, t, t.rows[id]); }
    case AdoptSession(rowId, truth, now, retryAt) =>
      var t := SweepAdopt(cfg, s, rowId, truth, now, retryAt);
      if t == s { IdleKnown(s, carried, t); } else { TouchKnown(s, carried, t, t.rows[rowId]); }
  }

  lemma TruthKnown(cfg: Config, s: State, carried: Carried, snapshot: Row, read: Reply<Truth>, receipts: Reply<seq<Receipt>>,
                   now: int)
    requires Known(s, carried)
    ensures var t := ReconcileTruth(cfg, s, snapshot, read, receipts, now); Known(t, Grown(carried, t))
  {
    var t := ReconcileTruth(cfg, s, snapshot, read, receipts, now);
    if t == s { IdleKnown(s, carried, t); } else { TouchKnown(s, carried, t, t.rows[snapshot.id]); }
  }

  lemma {:induction false} ScanKnown(s: State, carried: Carried, task: Id, model: Id, prewarm: bool, rest: seq<Row>, giveUp: bool)
    requires BorrowersKnown(carried, s.mem.borrowers)
    requires forall i :: 0 <= i < |rest| && rest[i].state.Open? ==> Listed(carried, rest[i])
    ensures var t := Scan(s, task, model, prewarm, rest, giveUp);
            BorrowersKnown(carried, t.mem.borrowers) && t == s.(mem := t.mem)
    decreases |rest|
  {
    if rest != [] && !(rest[0].model == model && rest[0].state.Open? && rest[0].id !in s.mem.active) {
      ScanKnown(s, carried, task, model, prewarm, rest[1..], giveUp);
    }
  }

  lemma PassKnown(s: State, carried: Carried, task: Id, listing: seq<Row>, giveUp: bool)
    requires Known(s, carried) && CanBorrow(s, PassAcquire(task, listing, giveUp))
    ensures var t := AcquirePass(s, task, listing, giveUp); Known(t, Grown(carried, t))
  {
    var Waiting(model, prewarm) := s.mem.borrowers[task];
    var t := AcquirePass(s, task, listing, giveUp);
    ScanKnown(s, carried, task, model, prewarm, listing, giveUp);
    hide Scan;
    RowsGrow(carried, t.rows);
    BorrowersGrow(carried, Pairs(t.rows), t.mem.borrowers);
    HolderGrows(carried, s.rows, t.rows, s.lock);
  }

  lemma JudgeKnown(cfg: Config, s: State, carried: Carried, model: Id, row: Row, read: Reply<Truth>, now: int)
    requires RowsKnown(carried, s.rows) && Listed(carried, row)
    ensures match Judge(cfg, s, model, row, read, now)
            case Quit => true
            case Skip(None) => true
            case Skip(Some(write)) => write.id == row.id && Listed(carried, write)
            case Grant(granted) => granted.id == row.id && Listed(carried, granted)
  {
  }

  lemma VerifyKnown(cfg: Config, s: State, carried: Carried, task: Id, read: Reply<Truth>, now: int, giveUp: bool)
    requires Known(s, carried) && CanBorrow(s, VerifyAcquire(task, read, now, giveUp))
    ensures var t := AcquireVerify(cfg, s, task, read, now, giveUp); Known(t, Grown(carried, t))
  {
    hide Scan;
    hide Judge;
    var Verifying(model, prewarm, row, rest) := s.mem.borrowers[task];
    var t := AcquireVerify(cfg, s, task, read, now, giveUp);
    assert BorrowerKnown(carried, s.mem.borrowers[task]) && (row.id, row.chainId.value) in carried;
    JudgeKnown(cfg, s, carried, model, row, read, now);
    var dropped := s.(mem := s.mem.(active := s.mem.active - {row.id}));
    match Judge(cfg, s, model, row, read, now)
    case Quit => TouchKnown(s, carried, t, row);
    case Skip(None) =>
      ScanKnown(dropped, carried, task, model, prewarm, rest, giveUp);
      TouchKnown(s, carried, t, row);
    case Skip(Some(write)) =>
      ScanKnown(PutRow(dropped, write), carried, task, model, prewarm, rest, giveUp);
      TouchKnown(s, carried, t, write);
    case Grant(granted) => TouchKnown(s, carried, t, granted);
  }

  lemma BorrowKnown(cfg: Config, s: State, carried: Carried, step: BorrowStep)
    requires Known(s, carried) && CanBorrow(s, step)
    ensures var t := ApplyBorrow(cfg, s, step); Known(t, Grown(carried, t))
  {
    var t := ApplyBorrow(cfg, s, step);
    match step
    case BeginAcquire(_, _, _) => BorrowersOnly(s, carried, t);
    case PassAcquire(task, listing, giveUp) => PassKnown(s, carried, task, listing, giveUp);
    case VerifyAcquire(task, read, now, giveUp) => VerifyKnown(cfg, s, carried, task, read, now, giveUp);
    case AbandonAcquire(_) => BorrowersOnly(s, carried, t);
    case ReleaseLease(task, now) => ReleaseKnown(s, carried, task, now);
    case InvalidateLease(task) => InvalidateKnown(s, carried, task);
  }

  lemma BorrowersOnly(s: State, carried: Carried, t: State)
    requires Known(s, carried) && t == s.(mem := t.mem) && BorrowersKnown(carried, t.mem.borrowers)
    ensures Known(t, Grown(carried, t))
  {
    RowsGrow(carried, t.rows);
    BorrowersGrow(carried, Pairs(t.rows), t.mem.borrowers);
    HolderGrows(carried, s.rows, t.rows, s.lock);
  }

  lemma ReleaseKnown(s: State, carried: Carried, task: Id, now: int)
    requires Known(s, carried) && CanBorrow(s, ReleaseLease(task, now))
    ensures var t := Release(s, task, now); Known(t, Grown(carried, t))
  {
    var t, id := Release(s, task, now), s.mem.borrowers[task].id;
    assert BorrowerKnown(carried, s.mem.borrowers[task]);
    if id in s.rows {
      TouchKnown(s, carried, t, t.rows[id]);
    } else {
      BorrowersOnly(s, carried, t);
    }
  }

  lemma InvalidateKnown(s: State, carried: Carried, task: Id)
    requires Known(s, carried) && CanBorrow(s, InvalidateLease(task))
    ensures var t := Invalidate(s, task); Known(t, Grown(carried, t))
  {
    var t, id := Invalidate(s, task), s.mem.borrowers[task].id;
    assert BorrowerKnown(carried, s.mem.borrowers[task]);
    if id in s.rows {
      TouchKnown(s, carried, t, t.rows[id]);
    } else {
      BorrowersOnly(s, carried, t);
    }
  }

  lemma UpkeepKnown(s: State, carried: Carried, step: UpkeepStep)
    requires Known(s, carried)
    ensures var t := ApplyUpkeep(s, step); Known(t, Grown(carried, t))
  {
    var t := ApplyUpkeep(s, step);
    RowsGrow(carried, t.rows);
    BorrowersGrow(carried, Pairs(t.rows), t.mem.borrowers);
    HolderGrows(carried, s.rows, t.rows, s.lock);
  }

  lemma RestartKnown(s: State, carried: Carried, step: RestartStep)
    requires Known(s, carried) && CanRestart(s, step)
    ensures var t := ApplyRestart(s, step); Known(t, Grown(carried, t))
  {
    var t := ApplyRestart(s, step);
    if step.CrashAndStart? {
      RowsGrow(carried, t.rows);
    } else {
      IdleKnown(s, carried, t);
    }
  }

  lemma TreasuryKnown(s: State, carried: Carried, step: TreasuryStep)
    requires Known(s, carried) && CanWithdraw(s, step)
    ensures var t := ApplyTreasury(s, step); Known(t, Grown(carried, t))
  {
    IdleKnown(s, carried, ApplyTreasury(s, step));
  }

  /** Every step of every task keeps what is known about chain ids. */
  lemma StepKnown(cfg: Config, s: State, carried: Carried, step: Step)
    requires Known(s, carried) && Leases.Leasing(s) && Enabled(s, step) && NewIds(s, carried, step)
    ensures var t := Apply(cfg, s, step); Known(t, Grown(carried, t))
  {
    hide Known;
    hide Grown;
    match step
    case Opens(o) => OpenKnown(cfg, s, carried, o);
    case Closes(c) => CloseKnown(cfg, s, carried, c);
    case Withdraws(w) => TreasuryKnown(s, carried, w);
    case Reconciles(r) => ReconcileKnown(cfg, s, carried, r);
    case Borrows(b) => BorrowKnown(cfg, s, carried, b);
    case Tends(u) => UpkeepKnown(s, carried, u);
    case Restarts(x) => RestartKnown(s, carried, x);
  }

  // ---------------------------------------------------------------- where chain ids come from

  /** The pair that a step may add: from the node's reply, its journal, a bind or an adoption. */
  ghost function NewPair(cfg: Config, s: State, step: Step): Option<(Id, Id)> {
    match step
    case Opens(ReplyOpen(Ok(answer), _)) =>
      if s.lock.OpenSubmitted? && answer.sessionId.Some? then Some((s.lock.row.id, answer.sessionId.value)) else None
    case Reconciles(FromJournal(snapshot, Some(p), _)) =>
      if snapshot.state.OpenUnknown? && p.sessionId.Some? then Some((snapshot.id, p.sessionId.value)) else None
    case Reconciles(BindSession(id, chainId, truth)) =>
      if BindAllowed(cfg, s, id, chainId, truth) then Some((id, chainId)) else None
    case Reconciles(AdoptSession(rowId, truth, _, _)) => Some((rowId, truth.id))
    case _ => None
  }

  /** Rows that the live view shows stay stored, and rows get chain ids from nowhere else. */
  ghost predicate Frame(s: State, carried: Carried, t: State, pair: Option<(Id, Id)>) {
    && (forall id :: id in s.rows && Live(s.rows[id]) ==> id in t.rows)
    && (forall id :: id in t.rows && t.rows[id].chainId.Some? ==>
          (id, t.rows[id].chainId.value) in carried || pair == Some((id, t.rows[id].chainId.value)))
  }

  lemma OpenErrorFrame(s: State, carried: Carried, model: Id, attempt: nat, row: Row, failure: Failure, now: int)
    requires Known(s, carried) && (row.chainId.Some? ==> Listed(carried, row))
    ensures Frame(s, carried, OpenError(s, model, attempt, row, failure, now), None)
  {
  }

  lemma OpenFrame(cfg: Config, s: State, carried: Carried, step: OpenStep)
    requires Known(s, carried) && CanOpen(s, step)
    ensures Frame(s, carried, ApplyOpen(cfg, s, step), NewPair(cfg, s, Opens(step)))
  {
    match step
    case ReplyOpen(answered, now) =>
      if answered.Err? {
        OpenErrorFrame(s, carried, s.lock.model, s.lock.attempt, s.lock.row, answered.failure, now);
      } else if answered.Ok? && answered.value.sessionId.None? {
        OpenErrorFrame(s, carried, s.lock.model, s.lock.attempt, s.lock.row, PROTOCOL_ERROR, now);
      }
    case ConfirmOpen(confirmed, now) =>
      if confirmed.Err? {
        OpenErrorFrame(s, carried, s.lock.model, s.lock.attempt, s.lock.row, confirmed.failure, now);
      } else if confirmed.Ok? && !ValidTruth(cfg.wallet, s.lock.row, confirmed.value) {
        OpenErrorFrame(s, carried, s.lock.model, s.lock.attempt, s.lock.row, PROTOCOL_ERROR, now);
      }
    case _ =>
  }

  lemma OneWriteFrame(s: State, carried: Carried, t: State, row: Row, pair: Option<(Id, Id)>)
    requires Known(s, carried) && (t.rows == s.rows || t.rows == s.rows[row.id := row])
    requires row.chainId.Some? ==> Listed(carried, row) || pair == Some((row.id, row.chainId.value))
    ensures Frame(s, carried, t, pair)
  {
  }

  lemma SameRowsFrame(s: State, carried: Carried, t: State, pair: Option<(Id, Id)>)
    requires Known(s, carried) && t.rows == s.rows
    ensures Frame(s, carried, t, pair)
  {
  }

  lemma CloseCheckFrame(s: State, carried: Carried, checked: Reply<()>, now: int)
    requires Known(s, carried) && s.lock.CloseChecking?
    ensures Frame(s, carried, CloseCheck(s, checked, now), None)
  {
    var t := CloseCheck(s, checked, now);
    if t.rows == s.rows {
      SameRowsFrame(s, carried, t, None);
    } else {
      OneWriteFrame(s, carried, t, t.rows[s.lock.id], None);
    }
  }

  lemma CloseReadFrame(cfg: Config, s: State, carried: Carried, read: Reply<Truth>, newOp: Id, now: int)
    requires Known(s, carried) && s.lock.CloseReading?
    ensures Frame(s, carried, CloseRead(cfg, s, read, newOp, now), None)
  {
    var t := CloseRead(cfg, s, read, newOp, now);
    if read.Cancelled? {
      SameRowsFrame(s, carried, t, None);
    } else {
      OneWriteFrame(s, carried, t, t.rows[s.lock.row.id], None);
    }
  }

  lemma CloseConfirmFrame(cfg: Config, s: State, carried: Carried, confirmed: Reply<Truth>, now: int)
    requires Known(s, carried) && s.lock.CloseConfirming?
    ensures Frame(s, carried, CloseConfirm(cfg, s, confirmed, now), None)
  {
    var t := CloseConfirm(cfg, s, confirmed, now);
    if t.rows == s.rows {
      SameRowsFrame(s, carried, t, None);
    } else {
      OneWriteFrame(s, carried, t, t.rows[s.lock.row.id], None);
    }
  }

  lemma CloseFrame(cfg: Config, s: State, carried: Carried, step: CloseStep)
    requires Known(s, carried) && CanClose(s, step)
    ensures Frame(s, carried, ApplyClose(cfg, s, step), None)
  {
    hide Frame;
    match step
    case BeginClose(id) => SameRowsFrame(s, carried, CloseBegin(s, id), None);
    case CheckClose(checked, now) => CloseCheckFrame(s, carried, checked, now);
    case SubmitClose(read, newId, now) => CloseReadFrame(cfg, s, carried, read, newId, now);
    case ReplyClose(closed, now) =>
      var t := CloseReply(s, closed, now);
      OneWriteFrame(s, carried, t, t.rows[s.lock.row.id], None);
    case ConfirmClose(confirmed, now) => CloseConfirmFrame(cfg, s, carried, confirmed, now);
  }

  lemma TruthFrame(cfg: Config, s: State, carried: Carried, snapshot: Row, read: Reply<Truth>, receipts: Reply<seq<Receipt>>,
                   now: int)
    requires Known(s, carried)
    ensures Frame(s, carried, ReconcileTruth(cfg, s, snapshot, read, receipts, now), None)
  {
    var t := ReconcileTruth(cfg, s, snapshot, read, receipts, now);
    if t == s {
      SameRowsFrame(s, carried, t, None);
    } else {
      OneWriteFrame(s, carried, t, t.rows[snapshot.id], None);
    }
  }

  lemma JournalFrame(s: State, carried: Carried, snapshot: Row, progress: Option<Progress>, now: int, pair: Option<(Id, Id)>)
    requires Known(s, carried)
    requires progress.Some? && snapshot.state.OpenUnknown? && progress.value.sessionId.Some? ==>
               pair == Some((snapshot.id, progress.value.sessionId.value))
    ensures Frame(s, carried, ReconcileJournal(s, snapshot, progress, now), pair)
  {
    var t := ReconcileJournal(s, snapshot, progress, now);
    if t == s {
      SameRowsFrame(s, carried, t, pair);
    } else {
      OneWriteFrame(s, carried, t, t.rows[snapshot.id], pair);
    }
  }

  lemma ReconcileFrame(cfg: Config, s: State, carried: Carried, step: ReconcileStep)
    requires Known(s, carried)
    ensures Frame(s, carried, ApplyReconcile(cfg, s, step), NewPair(cfg, s, Reconciles(step)))
  {
    hide Frame;
    var t, pair := ApplyReconcile(cfg, s, step), NewPair(cfg, s, Reconciles(step));
    match step
    case FromJournal(snapshot, progress, now) => JournalFrame(s, carried, snapshot, progress, now, pair);
    case FromTruth(snapshot, read, receipts, now) => TruthFrame(cfg, s, carried, snapshot, read, receipts, now);
    case FromReceipts(id, _, _) =>
      if t == s { SameRowsFrame(s, carried, t, pair); } else { OneWriteFrame(s, carried, t, t.rows[id], pair); }
    case BindSession(id, _, _) =>
      if t == s { SameRowsFrame(s, carried, t, pair); } else { OneWriteFrame(s, carried, t, t.rows[id], pair); }
    case NoteCandidate(id, _, _) =>
      if t == s { SameRowsFrame(s, carried, t, pair); } else { OneWriteFrame(s, carried, t, t.rows[id], pair); }
    case AdoptSession(rowId, _, _, _) =>
      if t == s { SameRowsFrame(s, carried, t, pair); } else { OneWriteFrame(s, carried, t, t.rows[rowId], pair); }
  }

  lemma VerifyFrame(cfg: Config, s: State, carried: Carried, task: Id, read: Reply<Truth>, now: int, giveUp: bool)
    requires Known(s, carried) && CanBorrow(s, VerifyAcquire(task, read, now, giveUp))
    ensures Frame(s, carried, AcquireVerify(cfg, s, task, read, now, giveUp), None)
  {
    hide Scan;
    hide Judge;
    hide Frame;
    var Verifying(model, prewarm, row, rest) := s.mem.borrowers[task];
    var t := AcquireVerify(cfg, s, task, read, now, giveUp);
    assert BorrowerKnown(carried, s.mem.borrowers[task]);
    JudgeKnown(cfg, s, carried, model, row, read, now);
    var dropped := s.(mem := s.mem.(active := s.mem.active - {row.id}));
    match Judge(cfg, s, model, row, read, now)
    case Quit => SameRowsFrame(s, carried, t, None);
    case Skip(None) =>
      ScanKnown(dropped, carried, task, model, prewarm, rest, giveUp);
      SameRowsFrame(s, carried, t, None);
    case Skip(Some(write)) =>
      ScanKnown(PutRow(dropped, write), carried, task, model, prewarm, rest, giveUp);
      OneWriteFrame(s, carried, t, write, None);
    case Grant(granted) => OneWriteFrame(s, carried, t, granted, None);
  }

  lemma BorrowFrame(cfg: Config, s: State, carried: Carried, step: BorrowStep)
    requires Known(s, carried) && CanBorrow(s, step)
    ensures Frame(s, carried, ApplyBorrow(cfg, s, step), None)
  {
    match step
    case PassAcquire(task, listing, giveUp) =>
      var Waiting(model, prewarm) := s.mem.borrowers[task];
      hide Scan;
      ScanKnown(s, carried, task, model, prewarm, listing, giveUp);
    case VerifyAcquire(task, read, now, giveUp) => VerifyFrame(cfg, s, carried, task, read, now, giveUp);
    case _ =>
  }

  lemma UpkeepFrame(s: State, carried: Carried, step: UpkeepStep)
    requires Known(s, carried)
    ensures Frame(s, carried, ApplyUpkeep(s, step), None)
  {
  }

  lemma RestartFrame(s: State, carried: Carried, step: RestartStep)
    requires Known(s, carried) && CanRestart(s, step)
    ensures Frame(s, carried, ApplyRestart(s, step), None)
  {
  }

  lemma TreasuryFrame(s: State, carried: Carried, step: TreasuryStep)
    requires Known(s, carried) && CanWithdraw(s, step)
    ensures Frame(s, carried, ApplyTreasury(s, step), None)
  {
  }

  lemma StepFrame(cfg: Config, s: State, carried: Carried, step: Step)
    requires Known(s, carried) && Enabled(s, step)
    ensures Frame(s, carried, Apply(cfg, s, step), NewPair(cfg, s, step))
  {
    hide Known;
    hide Frame;
    match step
    case Opens(o) => OpenFrame(cfg, s, carried, o);
    case Closes(c) => CloseFrame(cfg, s, carried, c);
    case Withdraws(w) => TreasuryFrame(s, carried, w);
    case Reconciles(r) => ReconcileFrame(cfg, s, carried, r);
    case Borrows(b) => BorrowFrame(cfg, s, carried, b);
    case Tends(u) => UpkeepFrame(s, carried, u);
    case Restarts(x) => RestartFrame(s, carried, x);
  }
}
