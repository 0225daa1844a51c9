/**
 Pass 3 of `reconcile`, the sweep's error handler, `bind` and the recovery of operations at the grain of their
 awaits.

 Each of them reads an uncertain opening (recovery: the operations that survived), awaits an answer and then
 writes back a copy of what it read, without comparing it with the store.  The protocol machine runs each of
 them as one step.  Here the read and the write are separate moves, and every other task may run in between.
 */
module StaleWrites {
  import opened Options
  import opened SessionRows
  import opened Protocol
  import opened WalletSafety
  import opened UncertainOutcome
  import opened StaleBorrower

  /** A copy in the hands of a task that awaits an answer: pass 3 or the sweep, a bind, recovery. */
  datatype Held = Looked(row: Row) | Asked(row: Row, chainId: Id) | Listed(op: Op)

  datatype Back =
    | ReceiptsRead(receipts: Reply<seq<Receipt>>, now: int)
    | BindFailed(now: int)
    | SessionRead(truth: Truth)
    | HelperAnswered(done: bool)

  /** `Start` is a crash and a new process up to the loop over operations; `Do` may also recover at one go. */
  datatype Move =
    | Do(step: Step) | Start | Look(id: Id) | Ask(id: Id, chainId: Id) | WriteBack(held: Held, back: Back)

  datatype Fine = Fine(gw: State, held: multiset<Held>)

  predicate Unmanaged(s: State, id: Id, chainId: Id) {
    forall x :: x in s.rows && x != id && Live(s.rows[x]) ==> s.rows[x].chainId != Some(chainId)
  }

  predicate Fits(held: Held, back: Back) {
    && (held.Looked? <==> back.ReceiptsRead? || back.BindFailed?)
    && (held.Asked? <==> back.SessionRead?)
  }

  ghost predicate CanMove(s: Fine, move: Move) {
    match move
    case Do(step) => Enabled(s.gw, step)
    case Start => true
    case Look(id) => id in s.gw.rows && s.gw.rows[id].state.OpenUnknown? && s.gw.rows[id].chainId.None?
    case Ask(id, chainId) => id in s.gw.rows && s.gw.rows[id].state.OpenUnknown? && Unmanaged(s.gw, id, chainId)
    case WriteBack(held, back) => held in s.held && Fits(held, back)
  }

  /** Pass 3 after the receipts: the copy fails, or takes the error. */
  ghost function ReceiptsBack(s: State, copy: Row, receipts: Reply<seq<Receipt>>, now: int): State {
    var txs := OpenTxs(copy.transactions);
    if txs == [] || receipts.Cancelled? then s
    else if receipts.Err? then PutRow(s, MarkError(copy, now))
    else if |receipts.value| == |txs| && TransactionState(txs, receipts.value).TxFailed?
    then PutRow(s, copy.(state := Failed)) else s
  }

  /** `bind` after the session was read: every later check is about the copy. */
  function SessionBack(cfg: Config, s: State, copy: Row, chainId: Id, truth: Truth): State {
    var row := copy.(chainId := Some(chainId));
    if !ValidTruth(cfg.wallet, row, truth)
       || !(copy.createdAt - 5 <= truth.openedAt <= copy.createdAt + cfg.openTimeout + 120) then s
    else
      var bound := row.(state := Open, endsAt := truth.endsAt, stake := truth.stake);
      PutRow(s, if truth.closedAt != 0 then RecordClosed(bound, truth) else bound)
  }

  /** Recovery after the helper answered; it writes only what changes. */
  function OpBack(s: State, copy: Op, done: bool): State {
    if RecoverOp(copy, done) == copy then s else PutOp(s, RecoverOp(copy, done))
  }

  ghost function AfterBack(cfg: Config, s: State, held: Held, back: Back): State
    requires Fits(held, back)
  {
    match back
    case ReceiptsRead(receipts, now) => ReceiptsBack(s, held.row, receipts, now)
    case BindFailed(now) => PutRow(s, MarkError(held.row, now))
    case SessionRead(truth) => SessionBack(cfg, s, held.row, held.chainId, truth)
    case HelperAnswered(done) => OpBack(s, held.op, done)
  }

  /** A new process: the rows are recovered before its first await. */
  function Begun(s: State): State {
    State(map id | id in s.rows :: RecoverRow(s.rows[id]), s.ops, s.policy, Free, FRESH_MEMORY, s.calls)
  }

  /** A crash takes the copies with it. */
  ghost function MoveOn(cfg: Config, s: Fine, move: Move): Fine
    requires CanMove(s, move)
  {
    match move
    case Do(step) =>
      Fine(Apply(cfg, s.gw, step), if step.Restarts? && step.x.CrashAndStart? then multiset{} else s.held)
    case Start => Fine(Begun(s.gw), multiset(set id | id in s.gw.ops :: Listed(s.gw.ops[id])))
    case Look(id) => s.(held := s.held + multiset{Looked(s.gw.rows[id])})
    case Ask(id, chainId) => s.(held := s.held + multiset{Asked(s.gw.rows[id], chainId)})
    case WriteBack(held, back) => Fine(AfterBack(cfg, s.gw, held, back), s.held - multiset{held})
  }

  ghost predicate FineRun(cfg: Config, s: Fine, moves: seq<Move>, t: Fine)
    decreases |moves|
  {
    if moves == [] then s == t
    else CanMove(s, moves[0]) && FineRun(cfg, MoveOn(cfg, s, moves[0]), moves[1..], t)
  }

  // ---------------------------------------------------------------- with a comparison the passes are atomic

  /** Copies are of openings that were uncertain, and without a session id if pass 3 or the sweep took them. */
  ghost predicate Copies(held: multiset<Held>) {
    forall h :: h in held && !h.Listed? ==> h.row.state.OpenUnknown? && (h.Looked? ==> h.row.chainId.None?)
  }

  lemma MoveKeepsCopies(cfg: Config, s: Fine, move: Move)
    requires Copies(s.held) && CanMove(s, move)
    ensures Copies(MoveOn(cfg, s, move).held)
  {
  }

  /** The row is as the task read it, and a bind's session is still nobody else's; recovery is not interleaved. */
  ghost predicate Current(s: State, move: Move) {
    && !move.Start?
    && (move.WriteBack? && !move.held.Listed? ==>
          Unchanged(s, move.held.row) && (move.held.Asked? ==> Unmanaged(s, move.held.row.id, move.held.chainId)))
  }

  function AtomicStep(held: Held, back: Back): Step
    requires Fits(held, back) && !held.Listed?
  {
    match back
    case ReceiptsRead(receipts, now) => Reconciles(FromReceipts(held.row.id, receipts, now))
    case BindFailed(now) => Reconciles(NoteCandidate(held.row.id, None, now))
    case SessionRead(truth) => Reconciles(BindSession(held.row.id, held.chainId, truth))
  }

  lemma CurrentWriteIsAtomic(cfg: Config, s: Fine, held: Held, back: Back)
    requires Copies(s.held) && CanMove(s, WriteBack(held, back)) && Current(s.gw, WriteBack(held, back)) && !held.Listed?
    ensures AfterBack(cfg, s.gw, held, back) == Apply(cfg, s.gw, AtomicStep(held, back))
  {
  }

  ghost predicate AllCurrent(cfg: Config, s: Fine, moves: seq<Move>)
    decreases |moves|
  {
    moves != [] && CanMove(s, moves[0]) ==>
      Current(s.gw, moves[0]) && AllCurrent(cfg, MoveOn(cfg, s, moves[0]), moves[1..])
  }

  ghost predicate RowsOnly(held: multiset<Held>) {
    forall h :: h in held ==> !h.Listed?
  }

  /**
   Whole runs: if every write-back finds its row as it was read, the gateway goes through a run of the protocol
   machine, so everything proved about that machine holds.
   */
  lemma {:induction false} CurrentRunIsAtomic(cfg: Config, s: Fine, moves: seq<Move>, t: Fine) returns (steps: seq<Step>)
    requires Copies(s.held) && RowsOnly(s.held) && FineRun(cfg, s, moves, t) && AllCurrent(cfg, s, moves)
    ensures Run(cfg, s.gw, steps, t.gw)
    decreases |moves|
  {
    if moves == [] {
      steps := [];
    } else {
      var s1 := MoveOn(cfg, s, moves[0]);
      MoveKeepsCopies(cfg, s, moves[0]);
      var rest := CurrentRunIsAtomic(cfg, s1, moves[1..], t);
      match moves[0]
      case Do(step) => RunStep(cfg, s.gw, step, rest, t.gw); steps := [step] + rest;
      case WriteBack(held, back) =>
        CurrentWriteIsAtomic(cfg, s, held, back);
        RunStep(cfg, s.gw, AtomicStep(held, back), rest, t.gw);
        steps := [AtomicStep(held, back)] + rest;
      case _ => steps := rest;
    }
  }

  // ---------------------------------------------------------------- without one: when the bound survives

  function ItemOf(held: Held): Item {
    if held.Listed? then WithdrawalItem(held.op.id) else RowItem(held.row.id)
  }

  /** The write-backs that may revive an item: pass 3 and the sweep after an error, and recovery of a withdrawal. */
  predicate Revives(held: Held, back: Back)
    requires Fits(held, back)
  {
    match back
    case ReceiptsRead(receipts, _) => receipts.Err?
    case BindFailed(_) => true
    case SessionRead(_) => false
    case HelperAnswered(_) => held.op.kind.Withdrawal? && held.op.state.Submitting?
  }

  /** No other row and no other withdrawal is unresolved. */
  predicate ClearExcept(s: State, item: Item) {
    && (forall id :: id in s.rows && RowItem(id) != item ==> !RowUnresolved(s.rows[id]))
    && (forall id :: id in s.ops && WithdrawalItem(id) != item ==> !OpUnresolved(s.ops[id]))
  }

  /** And the lock holder is neither about to submit nor awaiting another item. */
  predicate Permitted(s: State, item: Item) {
    && ClearExcept(s, item) && !s.lock.OpenQuoting?
    && (Carried(s.lock).Some? ==> Carried(s.lock) == Some(item))
    && (s.lock.TreasuryScanning? && item.WithdrawalItem? ==> item.id in s.lock.todo)
  }

  /** A bind, and a decision of pass 3 or about a restart, write nothing unresolved: they need no condition. */
  lemma DecisionHarmless(cfg: Config, s: State, held: Held, back: Back)
    requires Keyed(s) && Fits(held, back) && !Revives(held, back)
    requires held.Listed? ==> !(held.op.kind.Withdrawal? && held.op.state.Queued?)
    ensures Harmless(s, AfterBack(cfg, s, held, back))
  {
  }

  /** A write of one item as unresolved. */
  ghost predicate Puts(s: State, item: Item, t: State) {
    && t.lock == s.lock && Keyed(t) && Unresolved(t.rows, t.ops, item)
    && (forall x :: x != item ==> (Unresolved(t.rows, t.ops, x) <==> Unresolved(s.rows, s.ops, x)))
  }

  lemma ClearExceptMeans(s: State, item: Item)
    ensures ClearExcept(s, item) <==> NothingBut(s, Some(item))
  {
    if NothingBut(s, Some(item)) {
      forall id | id in s.rows && RowUnresolved(s.rows[id]) ensures RowItem(id) == item {
        assert Unresolved(s.rows, s.ops, RowItem(id));
      }
      forall id | id in s.ops && OpUnresolved(s.ops[id]) ensures WithdrawalItem(id) == item {
        assert Unresolved(s.rows, s.ops, WithdrawalItem(id));
      }
    }
  }

  /** Exactly when an item may be written back as unresolved. */
  lemma RevivalKeepsIff(s: State, item: Item, t: State)
    requires WalletInv(s) && Puts(s, item, t)
    ensures AtMostOne(t) <==> ClearExcept(s, item)
    ensures WalletInv(t) <==> Permitted(s, item)
  {
    ClearExceptMeans(s, item);
    if !ClearExcept(s, item) {
      var x :| Unresolved(s.rows, s.ops, x) && x != item;
      assert Unresolved(t.rows, t.ops, x);
    }
  }

  lemma RevivalPuts(cfg: Config, s: State, held: Held, back: Back)
    requires Keyed(s) && Fits(held, back) && Revives(held, back) && (held.Looked? ==> held.row.state.OpenUnknown?)
    ensures var t := AfterBack(cfg, s, held, back);
            t == s || Puts(s, ItemOf(held), t)
  {
    if held.Looked? {
      RowPuts(s, MarkError(held.row, back.now));
    }
  }

  lemma RowPuts(s: State, row: Row)
    requires Keyed(s) && RowUnresolved(row)
    ensures Puts(s, RowItem(row.id), PutRow(s, row))
  {
  }

  /** Every reviving write-back of the run is permitted where it happens. */
  ghost predicate AllPermitted(cfg: Config, s: Fine, moves: seq<Move>)
    decreases |moves|
  {
    moves != [] && CanMove(s, moves[0]) ==>
      && (moves[0].WriteBack? && Revives(moves[0].held, moves[0].back) ==> Permitted(s.gw, ItemOf(moves[0].held)))
      && AllPermitted(cfg, MoveOn(cfg, s, moves[0]), moves[1..])
  }

  /** No listed withdrawal is queued: none ever is. */
  ghost predicate NoneQueued(held: multiset<Held>) {
    forall h :: h in held && h.Listed? ==> !(h.op.kind.Withdrawal? && h.op.state.Queued?)
  }

  ghost predicate FineInv(s: Fine) {
    WalletInv(s.gw) && Copies(s.held) && NoneQueued(s.held)
  }

  lemma MoveKeepsWalletInv(cfg: Config, s: Fine, move: Move)
    requires FineInv(s) && CanMove(s, move)
    requires move.WriteBack? && Revives(move.held, move.back) ==> Permitted(s.gw, ItemOf(move.held))
    ensures WalletInv(MoveOn(cfg, s, move).gw)
  {
    match move
    case Do(step) => StepKeepsWalletInv(cfg, s.gw, step);
    case Start => assert Harmless(s.gw, Begun(s.gw)); HarmlessKeeps(s.gw, Begun(s.gw));
    case WriteBack(held, back) =>
      if Revives(held, back) {
        RevivalPuts(cfg, s.gw, held, back);
        if AfterBack(cfg, s.gw, held, back) != s.gw {
          RevivalKeepsIff(s.gw, ItemOf(held), AfterBack(cfg, s.gw, held, back));
        }
      } else {
        DecisionHarmless(cfg, s.gw, held, back);
        HarmlessKeeps(s.gw, AfterBack(cfg, s.gw, held, back));
      }
    case _ =>
  }

  lemma MoveKeepsQueued(cfg: Config, s: Fine, move: Move)
    requires Keyed(s.gw) && NoneQueued(s.held) && CanMove(s, move)
    ensures NoneQueued(MoveOn(cfg, s, move).held)
  {
  }

  /** Stale copies or not: while every reviving write-back is permitted, at most one wallet transaction is unresolved. */
  lemma {:induction false} FineRunKeeps(cfg: Config, s: Fine, moves: seq<Move>, t: Fine)
    requires FineInv(s) && FineRun(cfg, s, moves, t) && AllPermitted(cfg, s, moves)
    ensures FineInv(t) && AtMostOne(t.gw)
    decreases |moves|
  {
    if moves != [] {
      MoveKeepsWalletInv(cfg, s, moves[0]);
      MoveKeepsCopies(cfg, s, moves[0]);
      MoveKeepsQueued(cfg, s, moves[0]);
      FineRunKeeps(cfg, MoveOn(cfg, s, moves[0]), moves[1..], t);
    }
  }

  // ---------------------------------------------------------------- and exactly when it does

  /** The operation that a withdrawal carries is one. */
  predicate CarriesWithdrawal(s: State) {
    s.lock.WithdrawSubmitted? ==> s.lock.op.kind.Withdrawal?
  }

  ghost predicate BoundSurvives(cfg: Config, s: State) {
    forall steps, u :: Run(cfg, s, steps, u) ==> AtMostOne(u)
  }

  lemma {:induction false} Above(ids: set<Id>) returns (n: Id)
    ensures forall id :: id in ids ==> id < n
  {
    if ids == {} {
      n := 0;
    } else {
      var id :| id in ids;
      var rest := Above(ids - {id});
      n := if id < rest then rest else id + 1;
      assert forall x :: x in ids ==> x == id || x in ids - {id};
    }
  }

  function CallIds(call: Call): set<Id> {
    match call
    case CallOpen(id, _) => {id}
    case CallClose(id, op) => {id, op}
    case CallWithdraw(id) => {id}
  }

  lemma FreshId(s: State) returns (n: Id)
    ensures Fresh(s, n)
  {
    var called := set i, id | 0 <= i < |s.calls| && id in CallIds(s.calls[i]) :: id;
    n := Above(s.rows.Keys + s.ops.Keys + called);
    forall i | 0 <= i < |s.calls| ensures n !in CallIds(s.calls[i]) {
      assert forall id :: id in CallIds(s.calls[i]) ==> id in called;
    }
  }

  /** How the lock holder may end up writing its item back as unresolved. */
  function GivesUp(holder: Holder, newId: Id): Step
    requires Carried(holder).Some?
  {
    match holder
    case OpenSubmitted(_, _, _) => Opens(ReplyOpen(Cancelled, 0))
    case OpenConfirming(_, _, _) => Opens(ConfirmOpen(Cancelled, 0))
    case CloseReading(_) => Closes(SubmitClose(LOST_READ, newId, 0))
    case CloseSubmitted(_) => Closes(ReplyClose(Cancelled, 0))
    case CloseConfirming(_) => Closes(ConfirmClose(Cancelled, 0))
    case WithdrawSubmitted(_) => Withdraws(ReplyWithdrawal(Cancelled))
  }

  lemma HolderWritesBack(cfg: Config, s: State, newId: Id)
    requires CarriesWithdrawal(s) && Fresh(s, newId) && Carried(s.lock).Some?
    ensures var step := GivesUp(s.lock, newId);
            Enabled(s, step)
            && Unresolved(Apply(cfg, s, step).rows, Apply(cfg, s, step).ops, Carried(s.lock).value)
    ensures forall x :: Unresolved(s.rows, s.ops, x) && x != Carried(s.lock).value ==>
              Unresolved(Apply(cfg, s, GivesUp(s.lock, newId)).rows, Apply(cfg, s, GivesUp(s.lock, newId)).ops, x)
  {
  }

  /** An open that had passed its store check is submitted beside the revived row. */
  lemma OpenGoesOn(cfg: Config, s: State, quote: Quote, newId: Id)
    requires s.lock.OpenQuoting? && OpenAllowed(s, s.lock.policy, s.lock.reserved, quote) && Fresh(s, newId)
    ensures var t := Apply(cfg, s, Opens(SubmitOpen(Ok(quote), newId, 0)));
            && Unresolved(t.rows, t.ops, RowItem(newId))
            && (forall x :: Unresolved(s.rows, s.ops, x) ==> Unresolved(t.rows, t.ops, x))
  {
  }

  lemma StepBreaks(cfg: Config, s: State, step: Step, x: Item, y: Item)
    requires Enabled(s, step) && x != y
    requires Unresolved(Apply(cfg, s, step).rows, Apply(cfg, s, step).ops, x)
    requires Unresolved(Apply(cfg, s, step).rows, Apply(cfg, s, step).ops, y)
    ensures !BoundSurvives(cfg, s)
  {
    var t := Apply(cfg, s, step);
    assert Run(cfg, t, [step][1..], t);
    assert Run(cfg, s, [step], t);
  }

  /**
   After the revival of a row the bound holds in every continuation if and only if the revival was permitted.  An open
   that awaits its quote counts only if some quote can get it submitted.
   */
  lemma BoundSurvivesIff(cfg: Config, s: State, row: Row)
    requires WalletInv(s) && CarriesWithdrawal(s) && RowUnresolved(row)
    requires s.lock.OpenQuoting? ==> exists quote :: OpenAllowed(s, s.lock.policy, s.lock.reserved, quote)
    ensures BoundSurvives(cfg, PutRow(s, row)) <==> Permitted(s, RowItem(row.id))
  {
    var t := PutRow(s, row);
    RowPuts(s, row);
    RevivalKeepsIff(s, RowItem(row.id), t);
    if Permitted(s, RowItem(row.id)) {
      forall steps, u | Run(cfg, t, steps, u) ensures AtMostOne(u) {
        RunKeepsWalletInv(cfg, t, steps, u);
      }
    } else if !ClearExcept(s, RowItem(row.id)) {
      assert Run(cfg, t, [], t);
    } else {
      var newId := FreshId(t);
      if s.lock.OpenQuoting? {
        var quote :| OpenAllowed(s, s.lock.policy, s.lock.reserved, quote);
        OpenGoesOn(cfg, t, quote, newId);
        StepBreaks(cfg, t, Opens(SubmitOpen(Ok(quote), newId, 0)), RowItem(newId), RowItem(row.id));
      } else {
        HolderWritesBack(cfg, t, newId);
        StepBreaks(cfg, t, GivesUp(t.lock, newId), Carried(t.lock).value, RowItem(row.id));
      }
    }
  }

  lemma BorrowKeepsLock(cfg: Config, s: State, step: BorrowStep)
    requires CanBorrow(s, step)
    ensures ApplyBorrow(cfg, s, step).lock == s.lock
  {
    match step
    case VerifyAcquire(task, read, now, giveUp) => VerifyFrame(cfg, s, task, read, now, giveUp);
    case PassAcquire(task, listing, giveUp) =>
      var Waiting(model, prewarm) := s.mem.borrowers[task];
      ScanFrame(s, task, model, prewarm, listing, giveUp);
    case _ =>
  }

  /** The remaining assumption on the lock holder holds in every reachable state. */
  lemma StepKeepsKind(cfg: Config, s: State, step: Step)
    requires CarriesWithdrawal(s) && Enabled(s, step)
    ensures CarriesWithdrawal(Apply(cfg, s, step))
  {
    if step.Borrows? {
      BorrowKeepsLock(cfg, s, step.b);
    }
  }

  lemma {:induction false} FineRunKeepsKind(cfg: Config, s: Fine, moves: seq<Move>, t: Fine)
    requires CarriesWithdrawal(s.gw) && FineRun(cfg, s, moves, t)
    ensures CarriesWithdrawal(t.gw)
    decreases |moves|
  {
    if moves != [] {
      if moves[0].Do? {
        StepKeepsKind(cfg, s.gw, moves[0].step);
      }
      FineRunKeepsKind(cfg, MoveOn(cfg, s, moves[0]), moves[1..], t);
    }
  }

  // ---------------------------------------------------------------- a run that breaks it

  lemma {:induction false} FineConcat(cfg: Config, s: Fine, first: seq<Move>, t: Fine, second: seq<Move>, u: Fine)
    requires FineRun(cfg, s, first, t) && FineRun(cfg, t, second, u)
    ensures FineRun(cfg, s, first + second, u)
    decreases |first|
  {
    hide CanMove;
    hide MoveOn;
    if first == [] {
      assert first + second == second;
    } else {
      assert (first + second)[1..] == first[1..] + second;
      FineConcat(cfg, MoveOn(cfg, s, first[0]), first[1..], t, second, u);
    }
  }

  lemma FineOne(cfg: Config, s: Fine, move: Move)
    requires CanMove(s, move)
    ensures FineRun(cfg, s, [move], MoveOn(cfg, s, move))
  {
    assert FineRun(cfg, MoveOn(cfg, s, move), [move][1..], MoveOn(cfg, s, move));
  }

  ghost predicate NoCrash(steps: seq<Step>) {
    forall i :: 0 <= i < |steps| ==> !(steps[i].Restarts? && steps[i].x.CrashAndStart?)
  }

  /** The steps of a protocol run are moves; without a crash the copies stay in hand. */
  lemma {:induction false} AsMoves(cfg: Config, s: Fine, steps: seq<Step>, t: State) returns (moves: seq<Move>)
    requires Run(cfg, s.gw, steps, t) && NoCrash(steps)
    ensures FineRun(cfg, s, moves, Fine(t, s.held))
    decreases |steps|
  {
    if steps == [] {
      moves := [];
    } else {
      assert NoCrash(steps[1..]);
      var rest := AsMoves(cfg, MoveOn(cfg, s, Do(steps[0])), steps[1..], t);
      moves := [Do(steps[0])] + rest;
      assert moves[1..] == rest;
    }
  }

  const FIRST := Tx(OpenTx, 1, true)

  /** The opening 10 with its broadcast, but without an answer. */
  const LOST := MarkError(NewRow(10, 7, QUOTE, 5, 0).(state := OpenUnknown, transactions := [FIRST]), 0)
  const UNSURE := START.(rows := map[10 := LOST], calls := [CallOpen(10, 5)])

  const TIMEOUT := Opens(ReplyOpen(Err(Failure(OtherCode, UnknownOutcome, [FIRST])), 0))

  /** An open up to its submission. */
  lemma OpenIsSubmitted(s: State, listing: seq<Row>, id: Id) returns (steps: seq<Step>)
    requires Idle(s, listing) && Fresh(s, id)
    ensures Run(CFG, s, steps, Submitted(s, id)) && NoCrash(steps)
  {
    var quoting := s.(lock := OpenQuoting(7, 0, StaleBorrower.POLICY, SumStakes(listing)));
    OpenReachesQuote(s, listing);
    var submit := Opens(SubmitOpen(Ok(QUOTE), id, 0));
    assert StakeLimit(StaleBorrower.POLICY, SumStakes(listing), QUOTE) == 5;
    assert Apply(CFG, quoting, submit) == Submitted(s, id);
    var t := Submitted(s, id);
    assert Run(CFG, t, [], t);
    RunStep(CFG, quoting, submit, [], t);
    var check := [Opens(BeginOpen(7)), Opens(CheckOpen(Ok(()), listing))];
    RunConcat(CFG, s, check, quoting, [submit] + [], t);
    steps := check + ([submit] + []);
  }

  lemma AnswerIsLost()
    ensures Enabled(Submitted(START, 10), TIMEOUT) && Apply(CFG, Submitted(START, 10), TIMEOUT) == UNSURE
  {
    assert Apply(CFG, Submitted(START, 10), TIMEOUT).rows == UNSURE.rows;
    assert Submitted(START, 10).calls == UNSURE.calls;
  }

  lemma FirstUnsure() returns (steps: seq<Step>)
    ensures Run(CFG, START, steps, UNSURE) && NoCrash(steps)
  {
    var open := OpenIsSubmitted(START, [], 10);
    AnswerIsLost();
    assert Run(CFG, UNSURE, [], UNSURE);
    RunStep(CFG, Submitted(START, 10), TIMEOUT, [], UNSURE);
    RunConcat(CFG, START, open, Submitted(START, 10), [TIMEOUT] + [], UNSURE);
    steps := open + ([TIMEOUT] + []);
  }

  const BIND := Reconciles(BindSession(10, 10, RunningTruth(10)))
  const TIED := LOST.(state := Open, chainId := Some(10), endsAt := 1000)
  const BOUND := UNSURE.(rows := map[10 := TIED])

  /** An operator binds the opening to its session. */
  lemma FirstBound()
    ensures Apply(CFG, UNSURE, BIND) == BOUND && Idle(BOUND, [TIED]) && Fresh(BOUND, 11)
  {
    assert Apply(CFG, UNSURE, BIND).rows == BOUND.rows;
    var listing := [TIED];
    assert listing[0].id == 10 && listing[1..] == [];
    assert SumStakes(listing) == 5 + SumStakes([]) && CountModel(listing, 7) == 1 + CountModel([], 7);
  }

  /** Meanwhile: the bind, and a second open up to its submission. */
  lemma MeanwhileSubmitted() returns (steps: seq<Step>)
    ensures Run(CFG, UNSURE, steps, Submitted(BOUND, 11)) && NoCrash(steps)
  {
    FirstBound();
    var open := OpenIsSubmitted(BOUND, [TIED], 11);
    RunStep(CFG, UNSURE, BIND, open, Submitted(BOUND, 11));
    steps := [BIND] + open;
  }

  const COPY := Looked(LOST)
  const LOST_RECEIPT := WriteBack(COPY, ReceiptsRead(Err(Failure(OtherCode, NotSubmitted, [])), 0))

  /** Pass 3 still holds its copy of the first opening when its receipt read fails. */
  lemma ReceiptReadFails()
    ensures var s := Fine(Submitted(BOUND, 11), multiset{COPY});
            CanMove(s, LOST_RECEIPT) && {10, 11} <= UnresolvedRows(MoveOn(CFG, s, LOST_RECEIPT).gw)
  {
    assert OpenTxs([FIRST]) == [FIRST] + OpenTxs([FIRST][1..]) == [FIRST];
  }

  /** From an empty store: two openings are unresolved at once, the older one revived by a stale copy. */
  lemma TwoUnresolved() returns (moves: seq<Move>, t: Fine)
    ensures Init(START) && FineRun(CFG, Fine(START, multiset{}), moves, t) && |UnresolvedRows(t.gw)| >= 2
  {
    hide Run;
    hide FineRun;
    hide NoCrash;
    var s0 := Fine(START, multiset{});
    var first := FirstUnsure();
    var before := AsMoves(CFG, s0, first, UNSURE);
    var s1 := Fine(UNSURE, multiset{});
    FineOne(CFG, s1, Look(10));
    var s2 := Fine(UNSURE, multiset{COPY});
    assert MoveOn(CFG, s1, Look(10)).held == multiset{COPY};
    FineConcat(CFG, s0, before, s1, [Look(10)], s2);
    var meanwhile := MeanwhileSubmitted();
    var between := AsMoves(CFG, s2, meanwhile, Submitted(BOUND, 11));
    var s3 := Fine(Submitted(BOUND, 11), multiset{COPY});
    FineConcat(CFG, s0, before + [Look(10)], s2, between, s3);
    ReceiptReadFails();
    FineOne(CFG, s3, LOST_RECEIPT);
    t := MoveOn(CFG, s3, LOST_RECEIPT);
    FineConcat(CFG, s0, before + [Look(10)] + between, s3, [LOST_RECEIPT], t);
    moves := before + [Look(10)] + between + [LOST_RECEIPT];
    assert UnresolvedRows(t.gw) == {10, 11} + (UnresolvedRows(t.gw) - {10, 11});
  }
}
