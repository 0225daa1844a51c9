/**
 A lease is on a session of the model that was asked for.

 Row ids are never reused for another model: a new id is random, and an adopted session's id is made from its
 chain id.  A labelling of ids by models expresses that; every run that respects one keeps it.
 */
module LeasedModel {
  import opened Options
  import opened SessionRows
  import opened Protocol
  import opened WalletSafety
  import opened Leases

  /** The model of the session that each row id stands for. */
  datatype Labels = Labels(of: Id -> Id)

  predicate Fits(l: Labels, row: Row) {
    row.model == l.of(row.id)
  }

  /** The copy of a row in the hands of the lock holder. */
  function Copy(lock: Holder): Option<Row> {
    match lock
    case OpenSubmitted(_, _, row) => Some(row)
    case OpenConfirming(_, _, row) => Some(row)
    case CloseReading(row) => Some(row)
    case CloseSubmitted(row) => Some(row)
    case CloseConfirming(row) => Some(row)
    case _ => None
  }

  ghost predicate BorrowerFits(l: Labels, b: Borrower) {
    match b
    case Waiting(_, _) => true
    case Verifying(model, _, row, rest) =>
      row.model == model && Fits(l, row) && forall i :: 0 <= i < |rest| ==> Fits(l, rest[i])
    case Leased(_) => true
  }

  ghost predicate RowsFit(l: Labels, rows: map<Id, Row>) {
    forall id :: id in rows ==> rows[id].id == id && Fits(l, rows[id])
  }

  ghost predicate Labelled(l: Labels, s: State) {
    && RowsFit(l, s.rows)
    && (Copy(s.lock).Some? ==> Fits(l, Copy(s.lock).value))
    && (forall t :: t in s.mem.borrowers ==> BorrowerFits(l, s.mem.borrowers[t]))
  }

  /** New rows get ids that stand for their model. */
  predicate Respects(l: Labels, s: State, step: Step) {
    match step
    case Opens(SubmitOpen(_, newId, _)) => s.lock.OpenQuoting? ==> l.of(newId) == s.lock.model
    case Reconciles(AdoptSession(rowId, truth, _, _)) => l.of(rowId) == truth.model
    case _ => true
  }

  lemma SubmitLabelled(l: Labels, s: State, quoted: Reply<Quote>, newId: Id, now: int)
    requires Labelled(l, s) && s.lock.OpenQuoting? && l.of(newId) == s.lock.model
    ensures Labelled(l, OpenSubmit(s, quoted, newId, now))
  {
    hide BorrowerFits;
  }

  lemma ReplyLabelled(l: Labels, s: State, answered: Reply<OpenAnswer>, now: int)
    requires Labelled(l, s) && s.lock.OpenSubmitted?
    ensures Labelled(l, OpenReply(s, answered, now))
  {
    hide BorrowerFits;
  }

  lemma ConfirmLabelled(cfg: Config, l: Labels, s: State, confirmed: Reply<Truth>, now: int)
    requires Labelled(l, s) && s.lock.OpenConfirming?
    ensures Labelled(l, OpenConfirm(cfg, s, confirmed, now))
  {
    hide BorrowerFits;
  }

  lemma OpenLabelled(cfg: Config, l: Labels, s: State, step: OpenStep)
    requires Labelled(l, s) && CanOpen(s, step) && Respects(l, s, Opens(step))
    ensures Labelled(l, ApplyOpen(cfg, s, step))
  {
    hide BorrowerFits;
    hide RowsFit;
    hide OpenSubmit;
    hide OpenReply;
    hide OpenConfirm;
    match step
    case BeginOpen(_) =>
    case CheckOpen(_, _) =>
    case SubmitOpen(quoted, newId, now) => SubmitLabelled(l, s, quoted, newId, now);
    case ReplyOpen(answered, now) => ReplyLabelled(l, s, answered, now);
    case ConfirmOpen(confirmed, now) => ConfirmLabelled(cfg, l, s, confirmed, now);
  }

  lemma CloseCheckLabelled(l: Labels, s: State, checked: Reply<()>, now: int)
    requires Labelled(l, s) && s.lock.CloseChecking?
    ensures Labelled(l, CloseCheck(s, checked, now))
  {
    hide BorrowerFits;
  }

  lemma CloseReadLabelled(cfg: Config, l: Labels, s: State, read: Reply<Truth>, newOp: Id, now: int)
    requires Labelled(l, s) && s.lock.CloseReading?
    ensures Labelled(l, CloseRead(cfg, s, read, newOp, now))
  {
    hide BorrowerFits;
  }

  lemma CloseReplyLabelled(l: Labels, s: State, closed: Reply<Option<Tx>>, now: int)
    requires Labelled(l, s) && s.lock.CloseSubmitted?
    ensures Labelled(l, CloseReply(s, closed, now))
  {
    hide BorrowerFits;
  }

  lemma CloseConfirmLabelled(cfg: Config, l: Labels, s: State, confirmed: Reply<Truth>, now: int)
    requires Labelled(l, s) && s.lock.CloseConfirming?
    ensures Labelled(l, CloseConfirm(cfg, s, confirmed, now))
  {
    hide BorrowerFits;
  }

  lemma CloseLabelled(cfg: Config, l: Labels, s: State, step: CloseStep)
    requires Labelled(l, s) && CanClose(s, step)
    ensures Labelled(l, ApplyClose(cfg, s, step))
  {
    hide BorrowerFits;
    hide RowsFit;
    hide CloseCheck;
    hide CloseRead;
    hide CloseReply;
    hide CloseConfirm;
    match step
    case BeginClose(_) =>
    case CheckClose(checked, now) => CloseCheckLabelled(l, s, checked, now);
    case SubmitClose(read, newId, now) => CloseReadLabelled(cfg, l, s, read, newId, now);
    case ReplyClose(closed, now) => CloseReplyLabelled(l, s, closed, now);
    case ConfirmClose(confirmed, now) => CloseConfirmLabelled(cfg, l, s, confirmed, now);
  }

  lemma TreasuryLabelled(l: Labels, s: State, step: TreasuryStep)
    requires Labelled(l, s) && CanWithdraw(s, step)
    ensures Labelled(l, ApplyTreasury(s, step))
  {
    hide BorrowerFits;
    hide RowsFit;
  }

  lemma PutLabelled(l: Labels, s: State, row: Row)
    requires Labelled(l, s) && Fits(l, row)
    ensures Labelled(l, PutRow(s, row))
  {
    hide BorrowerFits;
  }

  lemma JournalLabelled(l: Labels, s: State, snapshot: Row, progress: Option<Progress>, now: int)
    requires Labelled(l, s)
    ensures Labelled(l, ReconcileJournal(s, snapshot, progress, now))
  {
    if Unchanged(s, snapshot) && progress.Some? {
      PutLabelled(l, s, JournalRow(snapshot, progress.value, now));
    }
  }

  lemma TruthLabelled(cfg: Config, l: Labels, s: State, snapshot: Row, read: Reply<Truth>, receipts: Reply<seq<Receipt>>, now: int)
    requires Labelled(l, s)
    ensures Labelled(l, ReconcileTruth(cfg, s, snapshot, read, receipts, now))
  {
    if Unchanged(s, snapshot) {
      PutLabelled(l, s, MarkError(snapshot, now));
      if read.Ok? {
        PutLabelled(l, s, RecordClosed(snapshot, read.value));
        PutLabelled(l, s, RunningRow(snapshot, read.value, CloseTxState(snapshot, receipts), now));
      }
    }
    hide Labelled;
  }

  lemma ReconcileLabelled(cfg: Config, l: Labels, s: State, step: ReconcileStep)
    requires Labelled(l, s) && Respects(l, s, Reconciles(step))
    ensures Labelled(l, ApplyReconcile(cfg, s, step))
  {
    hide BorrowerFits;
    match step
    case FromJournal(snapshot, progress, now) => JournalLabelled(l, s, snapshot, progress, now);
    case FromTruth(snapshot, read, receipts, now) => TruthLabelled(cfg, l, s, snapshot, read, receipts, now);
    case FromReceipts(id, receipts, now) => OneRowLabelled(l, s, ReconcileReceipts(s, id, receipts, now), id);
    case BindSession(id, chainId, truth) => OneRowLabelled(l, s, Bind(cfg, s, id, chainId, truth), id);
    case NoteCandidate(id, candidate, now) => OneRowLabelled(l, s, SweepNote(s, id, candidate, now), id);
    case AdoptSession(rowId, truth, now, retryAt) => OneRowLabelled(l, s, SweepAdopt(cfg, s, rowId, truth, now, retryAt), rowId);
  }

  lemma OneRowLabelled(l: Labels, s: State, t: State, id: Id)
    requires Labelled(l, s)
    requires t == s || (id in t.rows && t.rows[id].id == id && t == PutRow(s, t.rows[id]) && Fits(l, t.rows[id]))
    ensures Labelled(l, t)
  {
    if t != s {
      PutLabelled(l, s, t.rows[id]);
    }
  }

  lemma {:induction false} ScanLabelled(l: Labels, s: State, task: Id, model: Id, prewarm: bool, rest: seq<Row>, giveUp: bool)
    requires Labelled(l, s) && forall i :: 0 <= i < |rest| ==> Fits(l, rest[i])
    ensures Labelled(l, Scan(s, task, model, prewarm, rest, giveUp))
    decreases |rest|
  {
    hide RowsFit;
    if rest != [] && !(rest[0].model == model && rest[0].state.Open? && rest[0].id !in s.mem.active) {
      ScanLabelled(l, s, task, model, prewarm, rest[1..], giveUp);
    }
  }

  lemma JudgeLabelled(cfg: Config, l: Labels, s: State, model: Id, row: Row, read: Reply<Truth>, now: int)
    requires RowsFit(l, s.rows) && Fits(l, row) && row.model == model
    ensures match Judge(cfg, s, model, row, read, now)
            case Quit => true
            case Skip(None) => true
            case Skip(Some(write)) => Fits(l, write)
            case Grant(granted) => Fits(l, granted) && granted.id == row.id && granted.model == model
  {
  }

  /** In particular, what is leased is of the model that was asked for. */
  lemma VerifyLabelled(cfg: Config, l: Labels, s: State, task: Id, read: Reply<Truth>, now: int, giveUp: bool)
    requires Labelled(l, s) && task in s.mem.borrowers && s.mem.borrowers[task].Verifying?
    ensures var t := AcquireVerify(cfg, s, task, read, now, giveUp);
            && Labelled(l, t)
            && (task in t.mem.borrowers && t.mem.borrowers[task].Leased? ==>
                  var id := t.mem.borrowers[task].id; id in t.rows && t.rows[id].model == s.mem.borrowers[task].model)
  {
    hide Scan;
    hide Judge;
    var Verifying(model, prewarm, row, rest) := s.mem.borrowers[task];
    assert BorrowerFits(l, s.mem.borrowers[task]);
    JudgeLabelled(cfg, l, s, model, row, read, now);
    var dropped := s.(mem := s.mem.(active := s.mem.active - {row.id}));
    match Judge(cfg, s, model, row, read, now)
    case Quit =>
    case Skip(None) =>
      ScanLabelled(l, dropped, task, model, prewarm, rest, giveUp);
      ScanLeasesNothing(dropped, task, model, prewarm, rest, giveUp);
    case Skip(Some(write)) =>
      PutLabelled(l, dropped, write);
      ScanLabelled(l, PutRow(dropped, write), task, model, prewarm, rest, giveUp);
      ScanLeasesNothing(PutRow(dropped, write), task, model, prewarm, rest, giveUp);
    case Grant(granted) => PutLabelled(l, s, granted);
  }

  lemma {:induction false} ScanLeasesNothing(s: State, task: Id, model: Id, prewarm: bool, rest: seq<Row>, giveUp: bool)
    ensures var t := Scan(s, task, model, prewarm, rest, giveUp);
            task in t.mem.borrowers ==> !t.mem.borrowers[task].Leased?
    decreases |rest|
  {
    if rest != [] && !(rest[0].model == model && rest[0].state.Open? && rest[0].id !in s.mem.active) {
      ScanLeasesNothing(s, task, model, prewarm, rest[1..], giveUp);
    }
  }

  lemma BorrowLabelled(cfg: Config, l: Labels, s: State, step: BorrowStep)
    requires Labelled(l, s) && CanBorrow(s, step)
    ensures Labelled(l, ApplyBorrow(cfg, s, step))
  {
    hide Scan;
    match step
    case PassAcquire(task, listing, giveUp) =>
      var Waiting(model, prewarm) := s.mem.borrowers[task];
      ScanLabelled(l, s, task, model, prewarm, listing, giveUp);
    case VerifyAcquire(task, read, now, giveUp) => VerifyLabelled(cfg, l, s, task, read, now, giveUp);
    case _ =>
  }

  lemma UpkeepLabelled(l: Labels, s: State, step: UpkeepStep)
    requires Labelled(l, s)
    ensures Labelled(l, ApplyUpkeep(s, step))
  {
    hide BorrowerFits;
  }

  lemma RestartLabelled(l: Labels, s: State, step: RestartStep)
    requires Labelled(l, s) && CanRestart(s, step)
    ensures Labelled(l, ApplyRestart(s, step))
  {
    hide BorrowerFits;
  }

  lemma StepLabelled(cfg: Config, l: Labels, s: State, step: Step)
    requires Labelled(l, s) && Enabled(s, step) && Respects(l, s, step)
    ensures Labelled(l, Apply(cfg, s, step))
  {
    hide Labelled;
    match step
    case Opens(o) => OpenLabelled(cfg, l, s, o);
    case Closes(c) => CloseLabelled(cfg, l, s, c);
    case Withdraws(w) => TreasuryLabelled(l, s, w);
    case Reconciles(r) => ReconcileLabelled(cfg, l, s, r);
    case Borrows(b) => BorrowLabelled(cfg, l, s, b);
    case Tends(u) => UpkeepLabelled(l, s, u);
    case Restarts(x) => RestartLabelled(l, s, x);
  }

  ghost predicate RunRespects(cfg: Config, l: Labels, s: State, steps: seq<Step>)
    decreases |steps|
  {
    steps == [] ||
    (Enabled(s, steps[0]) && Respects(l, s, steps[0]) && RunRespects(cfg, l, Apply(cfg, s, steps[0]), steps[1..]))
  }

  lemma {:induction false} RunLabelled(cfg: Config, l: Labels, s: State, steps: seq<Step>, t: State)
    requires Labelled(l, s) && Run(cfg, s, steps, t) && RunRespects(cfg, l, s, steps)
    ensures Labelled(l, t)
    decreases |steps|
  {
    hide Labelled;
    if steps != [] {
      StepLabelled(cfg, l, s, steps[0]);
      RunLabelled(cfg, l, Apply(cfg, s, steps[0]), steps[1..], t);
    }
  }

  /** Whoever leases a session in a run without reused ids gets one of the requested model. */
  lemma LeaseIsOfModel(cfg: Config, l: Labels, init: State, steps: seq<Step>, s: State,
                       task: Id, read: Reply<Truth>, now: int, giveUp: bool)
    requires Init(init) && Run(cfg, init, steps, s) && RunRespects(cfg, l, init, steps)
    requires task in s.mem.borrowers && s.mem.borrowers[task].Verifying?
    ensures var t := AcquireVerify(cfg, s, task, read, now, giveUp);
            task in t.mem.borrowers && t.mem.borrowers[task].Leased? ==>
              var id := t.mem.borrowers[task].id; id in t.rows && t.rows[id].model == s.mem.borrowers[task].model
  {
    RunLabelled(cfg, l, init, steps, s);
    VerifyLabelled(cfg, l, s, task, read, now, giveUp);
  }
}
