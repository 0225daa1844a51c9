/**
 The wallet-session protocol of the gateway as a state machine.

 Every step is one await-free segment of `gateway/sessions.py`: it starts when an awaited reply arrives
 (or a task is first scheduled) and ends at the next await.  Replies are arbitrary, so the node may lose
 an answer, refuse, or lie.  `Reboot` is a crash at any point followed by the start of the next process.
 */
module Protocol {
  import opened Options
  import opened SessionRows

  /** Who holds the wallet lock, and the locals of that task at its await. */
  datatype Holder =
    | Free
    // _open: awaiting identity and catalog; awaiting the quote; awaiting the submission; awaiting the confirmation
    | OpenChecking(model: Id, attempt: nat, policy: Policy)
    | OpenQuoting(model: Id, attempt: nat, policy: Policy, reserved: int)
    | OpenSubmitted(model: Id, attempt: nat, row: Row)
    | OpenConfirming(model: Id, attempt: nat, row: Row)
    // close/_close: awaiting identity; awaiting the first read; awaiting the submission; awaiting the confirmation
    | CloseChecking(id: Id)
    | CloseReading(row: Row)
    | CloseSubmitted(row: Row)
    | CloseConfirming(row: Row)
    // treasury: awaiting identity; resolving earlier withdrawals; awaiting the submission; refreshing totals
    | TreasuryChecking
    | TreasuryScanning(todo: seq<Id>)
    | WithdrawSubmitted(op: Op)
    | WithdrawRefreshing
    // _restart: awaiting the helper
    | RestartHolding

  /** A task inside `acquire`, or holding the lease that `acquire` returned. */
  datatype Borrower =
    | Waiting(model: Id, prewarm: bool)
    | Verifying(model: Id, prewarm: bool, row: Row, rest: seq<Row>)
    | Leased(id: Id)

  datatype RestartTask =
    | NoRestart
    | DrainingRequests(op: Id, immediate: bool)
    | AwaitingLock(op: Id, immediate: bool)
    | HelperCalled(op: Id, immediate: bool)

  /** Money-moving calls sent to the node, in order. */
  datatype Call = CallOpen(id: Id, limit: int) | CallClose(id: Id, op: Id) | CallWithdraw(id: Id)

  /** Process memory besides the wallet lock. */
  datatype Memory = Memory(
    active: set<Id>, waiting: nat, maintenance: bool, borrowers: map<Id, Borrower>, restart: RestartTask)

  datatype State = State(
    rows: map<Id, Row>, ops: map<Id, Op>, policy: Policy,  // the store
    lock: Holder, mem: Memory,                             // lost in a crash
    calls: seq<Call>)                                       // what the node was asked to do

  const FRESH_MEMORY := Memory({}, 0, false, map[], NoRestart)

  /** Deployment constants. */
  datatype Config = Config(wallet: Id, requestTimeout: nat, openTimeout: nat)

  function PutRow(s: State, row: Row): State {
    s.(rows := s.rows[row.id := row])
  }

  function PutOp(s: State, op: Op): State {
    s.(ops := s.ops[op.id := op])
  }

  /** `require_clear_wallet`: no unresolved row other than `excluding`, no unresolved withdrawal. */
  predicate ClearWallet(s: State, excluding: Option<Id>) {
    && (forall id :: id in s.rows && excluding != Some(id) ==> !RowUnresolved(s.rows[id]))
    && (forall id :: id in s.ops ==> !OpUnresolved(s.ops[id]))
  }

  /** Ids come from uuid4: never used by a stored record or an earlier call. */
  ghost predicate Fresh(s: State, id: Id) {
    && id !in s.rows && id !in s.ops
    && (forall i :: 0 <= i < |s.calls| ==>
          match s.calls[i]
          case CallOpen(x, _) => x != id
          case CallClose(x, op) => x != id && op != id
          case CallWithdraw(x) => x != id)
  }

  // ---------------------------------------------------------------- _open

  /** Top of the attempt loop, with the lock held. */
  function OpenAttempt(s: State, model: Id, attempt: nat): State {
    if s.policy.paused || s.mem.maintenance || model !in s.policy.models then s.(lock := Free)
    else s.(lock := OpenChecking(model, attempt, s.policy))
  }

  function OpenBegin(s: State, model: Id): State
    requires s.lock.Free?
  {
    OpenAttempt(s, model, 0)
  }

  /** Identity and catalog answered: inspect the store before asking for a quote. */
  function OpenCheck(s: State, reply: Reply<()>, listing: seq<Row>): State
    requires s.lock.OpenChecking?
  {
    var OpenChecking(model, attempt, policy) := s.lock;
    if !reply.Ok?
       || (exists i :: 0 <= i < |listing| && (listing[i].state.Opening? || listing[i].state.OpenUnknown?))
       || model !in policy.models
       || |listing| >= policy.maxSessions
       || CountModel(listing, model) >= policy.models[model]
       || !ClearWallet(s, None)
    then s.(lock := Free)
    else s.(lock := OpenQuoting(model, attempt, policy, SumStakes(listing)))
  }

  /** Everything read between the store check and the submission. */
  datatype Quote = Quote(provider: Id, bid: Id, estimate: int, mor: int, eth: int, hold: int, available: int)

  function StakeLimit(policy: Policy, reserved: int, quote: Quote): int {
    Min(policy.maxSessionStake,
        Min(policy.maxTotalStake - (reserved + quote.hold + quote.available), quote.mor - policy.minLiquid))
  }

  predicate OpenAllowed(s: State, policy: Policy, reserved: int, quote: Quote) {
    var limit := StakeLimit(policy, reserved, quote);
    && 0 < quote.estimate <= limit
    && quote.eth >= policy.minEth
    && s.policy.revision == policy.revision
    && Permits(s.policy, quote.provider)
    && !s.mem.maintenance && !s.policy.paused
  }

  function NewRow(id: Id, model: Id, quote: Quote, limit: int, now: int): Row {
    Row(id, Opening, None, model, quote.provider, quote.bid, now, now, 0, limit, 0, 0, [], None, [], None, {})
  }

  /** Quote complete: persist the intent, then submit. */
  function OpenSubmit(s: State, reply: Reply<Quote>, newId: Id, now: int): State
    requires s.lock.OpenQuoting?
  {
    var OpenQuoting(model, attempt, policy, reserved) := s.lock;
    if !reply.Ok? || !OpenAllowed(s, policy, reserved, reply.value) then s.(lock := Free)
    else
      var limit := StakeLimit(policy, reserved, reply.value);
      var row := NewRow(newId, model, reply.value, limit, now);
      PutRow(s, row).(calls := s.calls + [CallOpen(newId, limit)],
                      lock := OpenSubmitted(model, attempt, row))
  }

  /** The error handler around submission and confirmation. */
  function OpenError(s: State, model: Id, attempt: nat, row: Row, failure: Failure, now: int): State {
    var row' := MarkError(
      row.(state := if failure.outcome.NotSubmitted? then Failed else OpenUnknown,
           transactions := if failure.transactions != [] then failure.transactions else row.transactions),
      now);
    var s' := PutRow(s, row');
    if failure.code.ProviderDeclined? && attempt < 2 then OpenAttempt(s', model, attempt + 1)
    else s'.(lock := Free)
  }

  /** An error raised by the gateway itself about a reply; its outcome is unknown. */
  const PROTOCOL_ERROR := Failure(OtherCode, UnknownOutcome, [])

  /** The node's answer to an open; `sessionId` is absent when it is malformed or zero. */
  datatype OpenAnswer = OpenAnswer(sessionId: Option<Id>, transactions: seq<Tx>)

  function OpenReply(s: State, reply: Reply<OpenAnswer>, now: int): State
    requires s.lock.OpenSubmitted?
  {
    var OpenSubmitted(model, attempt, row) := s.lock;
    match reply
    case Ok(answer) =>
      if answer.sessionId.None? then OpenError(s, model, attempt, row, PROTOCOL_ERROR, now)
      else
        var row' := row.(chainId := answer.sessionId, transactions := answer.transactions);
        PutRow(s, row').(lock := OpenConfirming(model, attempt, row'))
    case Err(failure) => OpenError(s, model, attempt, row, failure, now)
    case Cancelled => PutRow(s, row.(state := OpenUnknown)).(lock := Free)
  }

  function OpenConfirm(cfg: Config, s: State, reply: Reply<Truth>, now: int): State
    requires s.lock.OpenConfirming?
  {
    var OpenConfirming(model, attempt, row) := s.lock;
    match reply
    case Ok(truth) =>
      if !ValidTruth(cfg.wallet, row, truth) then OpenError(s, model, attempt, row, PROTOCOL_ERROR, now)
      else
        var admitted := !s.policy.paused && model in s.policy.models && Permits(s.policy, row.provider);
        PutRow(s, row.(state := if !admitted then Draining else if truth.closedAt != 0 then Closed else Open,
                       endsAt := truth.endsAt, stake := truth.stake)).(lock := Free)
    case Err(failure) => OpenError(s, model, attempt, row, failure, now)
    case Cancelled => PutRow(s, row.(state := OpenUnknown)).(lock := Free)
  }

  // ---------------------------------------------------------------- close and _close

  /** Before the lock: keep the intent to close. */
  function CloseRequest(s: State, id: Id): State {
    if id in s.rows && (s.rows[id].state.Open? || s.rows[id].state.Quarantined? || s.rows[id].state.Orphaned?)
    then PutRow(s, s.rows[id].(state := Draining))
    else s
  }

  function CloseBegin(s: State, id: Id): State
    requires s.lock.Free?
  {
    if s.mem.maintenance then s else s.(lock := CloseChecking(id))
  }

  function CloseCheck(s: State, reply: Reply<()>, now: int): State
    requires s.lock.CloseChecking?
  {
    var id := s.lock.id;
    var unlocked := s.(lock := Free);
    if id !in s.rows || reply.Cancelled? then unlocked
    else if reply.Err? then PutRow(unlocked, MarkError(s.rows[id], now))
    else
      var row := s.rows[id];
      if !Live(row) || row.state.Closing? || row.state.ClosePending? then unlocked
      else if id in s.mem.active then PutRow(unlocked, row.(state := Draining))
      else if row.chainId.None? then unlocked
      else s.(lock := CloseReading(row))
  }

  function CloseRead(cfg: Config, s: State, reply: Reply<Truth>, newOp: Id, now: int): State
    requires s.lock.CloseReading?
  {
    var row := s.lock.row;
    var unlocked := s.(lock := Free);
    match reply
    case Cancelled => unlocked
    case Err(_) => PutRow(unlocked, MarkError(row, now))
    case Ok(truth) =>
      if !ValidTruth(cfg.wallet, row, truth) then PutRow(unlocked, MarkError(row, now))
      else if truth.closedAt != 0 then PutRow(unlocked, RecordClosed(row, truth))
      else if !ClearWallet(s, Some(row.id)) then PutRow(unlocked, MarkError(row, now))
      else
        var row' := row.(state := Closing, closeOp := Some(newOp));
        PutRow(s, row').(calls := s.calls + [CallClose(row.id, newOp)], lock := CloseSubmitted(row'))
  }

  /** Errors of the submission and of the confirmation pass through two handlers. */
  function CloseError(s: State, row: Row, failure: Failure, now: int): State {
    var row' := row.(state := if failure.outcome.NotSubmitted? then Draining else ClosePending,
                     closeTransactions := failure.transactions);
    PutRow(s, MarkError(MarkError(row', now), now)).(lock := Free)
  }

  function CloseReply(s: State, reply: Reply<Option<Tx>>, now: int): State
    requires s.lock.CloseSubmitted?
  {
    var row := s.lock.row;
    match reply
    case Ok(tx) =>
      var row' := row.(closeTx := tx, state := ClosePending);
      PutRow(s, row').(lock := CloseConfirming(row'))
    case Err(failure) => CloseError(s, row, failure, now)
    case Cancelled => PutRow(s, row.(state := ClosePending)).(lock := Free)
  }

  function CloseConfirm(cfg: Config, s: State, reply: Reply<Truth>, now: int): State
    requires s.lock.CloseConfirming?
  {
    var row := s.lock.row;
    match reply
    case Ok(truth) =>
      if !ValidTruth(cfg.wallet, row, truth) then CloseError(s, row, PROTOCOL_ERROR, now)
      else if truth.closedAt == 0 then s.(lock := Free)
      else PutRow(s, RecordClosed(row, truth)).(lock := Free)
    case Err(failure) => CloseError(s, row, failure, now)
    case Cancelled => PutRow(s, row.(state := ClosePending)).(lock := Free)
  }

  // ---------------------------------------------------------------- treasury

  function TreasuryBegin(s: State): State
    requires s.lock.Free?
  {
    if s.mem.maintenance then s else s.(lock := TreasuryChecking)
  }

  /** The unresolved withdrawals, each exactly once. */
  ghost predicate IsWithdrawalList(ops: map<Id, Op>, todo: seq<Id>) {
    && (forall i :: 0 <= i < |todo| ==> todo[i] in ops && OpUnresolved(ops[todo[i]]))
    && (forall i, j :: 0 <= i < j < |todo| ==> todo[i] != todo[j])
    && (forall id :: id in ops && OpUnresolved(ops[id]) ==> id in todo)
  }

  function TreasuryList(s: State, reply: Reply<()>, todo: seq<Id>): State
    requires s.lock.TreasuryChecking?
  {
    if reply.Ok? then s.(lock := TreasuryScanning(todo)) else s.(lock := Free)
  }

  /** What journal and receipts say about an earlier withdrawal; `None` while it is undecided. */
  ghost function WithdrawalVerdict(op: Op, progress: Option<Progress>, receipts: Reply<seq<Receipt>>): Option<OpState> {
    if progress.Some? && progress.value.completed && progress.value.httpStatus == 200 then Some(Succeeded)
    else if progress.Some? && progress.value.completed && progress.value.stage.StageNotSubmitted? then Some(OpFailed)
    else if !receipts.Ok? || |receipts.value| != |op.transactions| then None
    else
      match TransactionState(op.transactions, receipts.value)
      case TxSucceeded => Some(Succeeded)
      case TxFailed => Some(OpFailed)
      case _ => None
  }

  /** One earlier withdrawal: journal first, then receipts; an undecided one stops the treasury. */
  ghost function TreasuryResolve(s: State, progress: Option<Progress>, receipts: Reply<seq<Receipt>>): State
    requires s.lock.TreasuryScanning? && s.lock.todo != [] && s.lock.todo[0] in s.ops
  {
    var op := s.ops[s.lock.todo[0]];
    var op' := if progress.Some? then op.(transactions := progress.value.transactions) else op;
    match WithdrawalVerdict(op', progress, receipts)
    case Some(state) => PutOp(s, op'.(state := state)).(lock := TreasuryScanning(s.lock.todo[1..]))
    case None => PutOp(s, op').(lock := Free)
  }

  /** `due` collects interval, threshold and gas conditions, which only decide whether to stop here. */
  function TreasurySubmit(s: State, due: bool, newId: Id, now: int): State
    requires s.lock.TreasuryScanning? && s.lock.todo == []
  {
    if !due || exists id :: id in s.rows && RowUnresolved(s.rows[id]) then s.(lock := Free)
    else
      var op := Op(newId, Withdrawal, Submitting, now, []);
      PutOp(s, op).(calls := s.calls + [CallWithdraw(newId)], lock := WithdrawSubmitted(op))
  }

  function WithdrawReply(s: State, reply: Reply<Option<Tx>>): State
    requires s.lock.WithdrawSubmitted?
  {
    var op := s.lock.op;
    match reply
    case Ok(Some(tx)) =>
      PutOp(s, op.(state := Succeeded, transactions := [tx])).(lock := WithdrawRefreshing)
    case Ok(None) => PutOp(s, op.(state := Uncertain, transactions := [])).(lock := Free)
    case Err(failure) =>
      PutOp(s, op.(state := if failure.outcome.NotSubmitted? then OpFailed else Uncertain,
                   transactions := failure.transactions)).(lock := Free)
    case Cancelled => PutOp(s, op.(state := Uncertain)).(lock := Free)
  }

  function WithdrawRefresh(s: State): State
    requires s.lock.WithdrawRefreshing?
  {
    s.(lock := Free)
  }

  // ---------------------------------------------------------------- reconcile, bind and sweep

  predicate Unchanged(s: State, snapshot: Row) {
    snapshot.id in s.rows && s.rows[snapshot.id] == snapshot
  }

  /** Pass 1, after the journal answered about a row read earlier. */
  function ReconcileJournal(s: State, snapshot: Row, progress: Option<Progress>, now: int): State {
    if (snapshot.state.OpenUnknown? || snapshot.state.ClosePending?) && Unchanged(s, snapshot) && progress.Some?
    then PutRow(s, JournalRow(snapshot, progress.value, now))
    else s
  }

  /** What the receipts say about the close of a row. */
  ghost function CloseTxState(row: Row, receipts: Reply<seq<Receipt>>): TxState {
    if receipts.Ok? && |receipts.value| == |CloseTxs(row)|
    then TransactionState(CloseTxs(row), receipts.value) else TxUnknown
  }

  /** Pass 2, after the chain (and, for a pending close, the receipts) answered about a row read earlier. */
  ghost function ReconcileTruth(cfg: Config, s: State, snapshot: Row, reply: Reply<Truth>,
                                receipts: Reply<seq<Receipt>>, now: int): State {
    if snapshot.chainId.None? || !Unchanged(s, snapshot) || reply.Cancelled? then s
    else if reply.Err? || !ValidTruth(cfg.wallet, snapshot, reply.value) then PutRow(s, MarkError(snapshot, now))
    else if reply.value.closedAt != 0 then PutRow(s, RecordClosed(snapshot, reply.value))
    else if snapshot.state.ClosePending? && receipts.Err? then PutRow(s, MarkError(snapshot, now))
    else if snapshot.state.ClosePending? && receipts.Cancelled? then s
    else
      PutRow(s, RunningRow(snapshot, reply.value, CloseTxState(snapshot, receipts), now))
  }

  /** Pass 3: an opening without a session id whose open transactions are looked up. */
  ghost function ReconcileReceipts(s: State, id: Id, receipts: Reply<seq<Receipt>>, now: int): State {
    if id !in s.rows || !s.rows[id].state.OpenUnknown? || s.rows[id].chainId.Some?
       || OpenTxs(s.rows[id].transactions) == [] || receipts.Cancelled? then s
    else if receipts.Err? then PutRow(s, MarkError(s.rows[id], now))
    else
      var txs := OpenTxs(s.rows[id].transactions);
      if |receipts.value| == |txs| && TransactionState(txs, receipts.value).TxFailed?
      then PutRow(s, s.rows[id].(state := Failed)) else s
  }

  /** An operator (or the sweep) names the session of an uncertain opening. */
  predicate BindAllowed(cfg: Config, s: State, id: Id, chainId: Id, truth: Truth) {
    && id in s.rows && s.rows[id].state.OpenUnknown?
    && (forall x :: x in s.rows && x != id && Live(s.rows[x]) ==> s.rows[x].chainId != Some(chainId))
    && ValidTruth(cfg.wallet, s.rows[id].(chainId := Some(chainId)), truth)
    && s.rows[id].createdAt - 5 <= truth.openedAt <= s.rows[id].createdAt + cfg.openTimeout + 120
  }

  function Bind(cfg: Config, s: State, id: Id, chainId: Id, truth: Truth): State {
    if !BindAllowed(cfg, s, id, chainId, truth) then s
    else
      var row := s.rows[id].(chainId := Some(chainId), state := Open, endsAt := truth.endsAt, stake := truth.stake);
      PutRow(s, if truth.closedAt != 0 then RecordClosed(row, truth) else row)
  }

  /** The sweep records an error on, or a candidate session for, an uncertain opening. */
  function SweepNote(s: State, id: Id, candidate: Option<Id>, now: int): State {
    if id !in s.rows || !s.rows[id].state.OpenUnknown? || s.rows[id].chainId.Some? then s
    else if candidate.Some? then
      PutRow(s, s.rows[id].(candidates := s.rows[id].candidates + {candidate.value}))
    else PutRow(s, MarkError(s.rows[id], now))
  }

  /**
   The sweep adopts a wallet session that no live row manages.  Its row id is derived from the chain id, so
   a live row under that id would manage the same session; both cases leave the store alone.
   */
  function SweepAdopt(cfg: Config, s: State, rowId: Id, truth: Truth, now: int, retryAt: int): State {
    var row := Row(rowId, Orphaned, Some(truth.id), truth.model, truth.provider, truth.bid, now, now,
                   truth.endsAt, truth.stake, 0, retryAt, [], None, [], None, {});
    if (exists x :: x in s.rows && Live(s.rows[x]) && s.rows[x].chainId == Some(truth.id))
       || (rowId in s.rows && Live(s.rows[rowId]))
       || !ValidTruth(cfg.wallet, row, truth) || truth.closedAt != 0
    then s else PutRow(s, row)
  }

  // ---------------------------------------------------------------- acquire, release, invalidate

  function AcquireBegin(s: State, task: Id, model: Id, prewarm: bool): State
    requires task !in s.mem.borrowers
  {
    if s.policy.paused || s.mem.maintenance || s.mem.waiting >= 64 then s
    else s.(mem := s.mem.(waiting := s.mem.waiting + 1,
                          borrowers := s.mem.borrowers[task := Waiting(model, prewarm)]))
  }

  /** Every exit of `acquire` that does not return a lease. */
  function Leave(s: State, task: Id): State {
    s.(mem := s.mem.(waiting := if s.mem.waiting > 0 then s.mem.waiting - 1 else 0,
                     borrowers := s.mem.borrowers - {task}))
  }

  /** Continue the scan over the rows listed at the start of the pass, reserving the first usable one. */
  function Scan(s: State, task: Id, model: Id, prewarm: bool, rest: seq<Row>, giveUp: bool): State
    decreases |rest|
  {
    if rest == [] then
      // No reservation was possible: wait for an opener or for the pool, or raise.
      if giveUp || exists id :: id in s.rows && s.rows[id].state.OpenUnknown?
      then Leave(s, task)
      else s.(mem := s.mem.(borrowers := s.mem.borrowers[task := Waiting(model, prewarm)]))
    else if rest[0].model == model && rest[0].state.Open? && rest[0].id !in s.mem.active then
      s.(mem := s.mem.(active := s.mem.active + {rest[0].id},
                       borrowers := s.mem.borrowers[task := Verifying(model, prewarm, rest[0], rest[1..])]))
    else Scan(s, task, model, prewarm, rest[1..], giveUp)
  }

  function AcquirePass(s: State, task: Id, listing: seq<Row>, giveUp: bool): State
    requires task in s.mem.borrowers && s.mem.borrowers[task].Waiting?
  {
    var Waiting(model, prewarm) := s.mem.borrowers[task];
    if s.mem.maintenance || s.policy.paused || model !in s.policy.models then Leave(s, task)
    else Scan(s, task, model, prewarm, listing, giveUp)
  }

  /** The lease is granted only on this condition, checked in the segment that grants it. */
  predicate Grantable(cfg: Config, s: State, model: Id, row: Row, truth: Truth, now: int) {
    && row.id in s.rows && s.rows[row.id].state.Open?
    && truth.closedAt == 0
    && truth.endsAt > now + cfg.requestTimeout + 15
    && !s.policy.paused && !s.mem.maintenance
    && model in s.policy.models && Permits(s.policy, s.rows[row.id].provider)
  }

  /** What the answers about a reserved row mean for the borrower. */
  datatype Verdict =
    | Quit                        // raise
    | Skip(write: Option<Row>)    // try the next listed row, after at most one write
    | Grant(row: Row)

  function Judge(cfg: Config, s: State, model: Id, row: Row, reply: Reply<Truth>, now: int): Verdict {
    if reply.Cancelled? || (reply.Err? && reply.failure.code.Admission?) then Quit
    else if reply.Err? || !ValidTruth(cfg.wallet, row, reply.value) then
      Skip(Some(MarkError(row.(state := Quarantined), now)))
    else if row.id !in s.rows || !s.rows[row.id].state.Open? then Skip(None)
    else if reply.value.closedAt != 0 then Skip(Some(s.rows[row.id].(state := Closed)))
    else if reply.value.endsAt <= now + cfg.requestTimeout + 15 then Skip(Some(s.rows[row.id].(state := Draining)))
    else if !Grantable(cfg, s, model, row, reply.value, now) then Quit
    else Grant(s.rows[row.id].(lastUsed := now, endsAt := reply.value.endsAt))
  }

  /** Identity and chain answered about the reserved row. */
  function AcquireVerify(cfg: Config, s: State, task: Id, reply: Reply<Truth>, now: int, giveUp: bool): State
    requires task in s.mem.borrowers && s.mem.borrowers[task].Verifying?
  {
    var Verifying(model, prewarm, row, rest) := s.mem.borrowers[task];
    var dropped := s.(mem := s.mem.(active := s.mem.active - {row.id}));
    match Judge(cfg, s, model, row, reply, now)
    case Quit => Leave(dropped, task)
    case Skip(None) => Scan(dropped, task, model, prewarm, rest, giveUp)
    case Skip(Some(write)) => Scan(PutRow(dropped, write), task, model, prewarm, rest, giveUp)
    case Grant(granted) =>
      if prewarm then Leave(PutRow(dropped, granted), task)
      else
        PutRow(s, granted).(mem := s.mem.(waiting := if s.mem.waiting > 0 then s.mem.waiting - 1 else 0,
                                          borrowers := s.mem.borrowers[task := Leased(row.id)]))
  }

  /** Cancellation of a borrower that waits without a reservation. */
  function AcquireAbandon(s: State, task: Id): State
    requires task in s.mem.borrowers && s.mem.borrowers[task].Waiting?
  {
    Leave(s, task)
  }

  function Release(s: State, task: Id, now: int): State
    requires task in s.mem.borrowers && s.mem.borrowers[task].Leased?
  {
    var id := s.mem.borrowers[task].id;
    var s' := s.(mem := s.mem.(active := s.mem.active - {id}, borrowers := s.mem.borrowers - {task}));
    if id in s.rows then PutRow(s', s.rows[id].(lastUsed := now)) else s'
  }

  function Invalidate(s: State, task: Id): State
    requires task in s.mem.borrowers && s.mem.borrowers[task].Leased?
  {
    var id := s.mem.borrowers[task].id;
    if id in s.rows && !s.rows[id].state.Closed? && !s.rows[id].state.Closing? && !s.rows[id].state.ClosePending?
    then PutRow(s, s.rows[id].(state := Draining)) else s
  }

  // ---------------------------------------------------------------- rebalance, policy, prune

  /** `rebalance` and `tick` move open rows to draining. */
  function Drain(s: State, ids: set<Id>): State {
    s.(rows := map id | id in s.rows ::
         if id in ids && s.rows[id].state.Open? then s.rows[id].(state := Draining) else s.rows[id])
  }

  function SetPolicy(s: State, policy: Policy): State {
    s.(policy := policy)
  }

  /** Prunable operations: a withdrawal or restart that ended. */
  predicate Ended(op: Op) {
    op.state.Succeeded? || op.state.OpFailed? || op.state.Interrupted?
  }

  function Prune(s: State, cutoff: int): State {
    s.(rows := map id | id in s.rows && (Live(s.rows[id]) || s.rows[id].createdAt >= cutoff) :: s.rows[id],
       ops := map id | id in s.ops && (!Ended(s.ops[id]) || s.ops[id].createdAt >= cutoff) :: s.ops[id])
  }

  // ---------------------------------------------------------------- node restart

  function RestartRequest(s: State, op: Id, immediate: bool, now: int): State {
    if s.mem.maintenance then s
    else
      PutOp(s, Op(op, NodeRestart, Queued, now, [])).(
        mem := s.mem.(maintenance := true, restart := DrainingRequests(op, immediate)))
  }

  function SetOpState(s: State, id: Id, state: OpState): State {
    if id in s.ops then PutOp(s, s.ops[id].(state := state)) else s
  }

  /** One look at `active`. */
  function RestartPoll(s: State): State
    requires s.mem.restart.DrainingRequests?
  {
    var s' := SetOpState(s, s.mem.restart.op, OpDraining);
    if s.mem.active == {} || s.mem.restart.immediate
    then s'.(mem := s.mem.(restart := AwaitingLock(s.mem.restart.op, s.mem.restart.immediate))) else s'
  }

  /** Lock obtained: the helper is asked to restart the node. */
  function RestartLock(s: State): State
    requires s.mem.restart.AwaitingLock? && s.lock.Free?
  {
    SetOpState(s, s.mem.restart.op, Restarting).(
      lock := RestartHolding, mem := s.mem.(restart := HelperCalled(s.mem.restart.op, s.mem.restart.immediate)))
  }

  /** The helper answered (or failed, or was cancelled): release the lock, then resume admission. */
  function RestartEnd(s: State, ok: bool): State
    requires s.mem.restart.HelperCalled?
  {
    SetOpState(s, s.mem.restart.op, if ok then Succeeded else OpFailed).(
      lock := Free, mem := s.mem.(restart := NoRestart, maintenance := false))
  }

  function RestartTimeout(s: State): State
    requires s.mem.restart.DrainingRequests? || s.mem.restart.AwaitingLock?
  {
    SetOpState(s, s.mem.restart.op, OpFailed).(mem := s.mem.(restart := NoRestart, maintenance := false))
  }

  /** A crash keeps the store and what the node was asked; `helperDone` answers for interrupted restarts. */
  function Reboot(s: State, helperDone: set<Id>): State {
    State(map id | id in s.rows :: RecoverRow(s.rows[id]),
          map id | id in s.ops :: RecoverOp(s.ops[id], id in helperDone),
          s.policy, Free, FRESH_MEMORY, s.calls)
  }

  // ---------------------------------------------------------------- steps and runs

  datatype OpenStep =
    | BeginOpen(model: Id)
    | CheckOpen(checked: Reply<()>, listing: seq<Row>)
    | SubmitOpen(quoted: Reply<Quote>, newId: Id, now: int)
    | ReplyOpen(answered: Reply<OpenAnswer>, now: int)
    | ConfirmOpen(confirmed: Reply<Truth>, now: int)

  datatype CloseStep =
    | BeginClose(id: Id)
    | CheckClose(checked: Reply<()>, now: int)
    | SubmitClose(read: Reply<Truth>, newId: Id, now: int)
    | ReplyClose(closed: Reply<Option<Tx>>, now: int)
    | ConfirmClose(confirmed: Reply<Truth>, now: int)

  datatype TreasuryStep =
    | BeginTreasury
    | ListTreasury(checked: Reply<()>, todo: seq<Id>)
    | ResolveWithdrawal(progress: Option<Progress>, receipts: Reply<seq<Receipt>>)
    | SubmitWithdrawal(due: bool, newId: Id, now: int)
    | ReplyWithdrawal(withdrawn: Reply<Option<Tx>>)
    | RefreshTreasury

  datatype ReconcileStep =
    | FromJournal(snapshot: Row, progress: Option<Progress>, now: int)
    | FromTruth(snapshot: Row, read: Reply<Truth>, receipts: Reply<seq<Receipt>>, now: int)
    | FromReceipts(id: Id, receipts: Reply<seq<Receipt>>, now: int)
    | BindSession(id: Id, chainId: Id, truth: Truth)
    | NoteCandidate(id: Id, candidate: Option<Id>, now: int)
    | AdoptSession(rowId: Id, truth: Truth, now: int, retryAt: int)

  datatype BorrowStep =
    | BeginAcquire(task: Id, model: Id, prewarm: bool)
    | PassAcquire(task: Id, listing: seq<Row>, giveUp: bool)
    | VerifyAcquire(task: Id, read: Reply<Truth>, now: int, giveUp: bool)
    | AbandonAcquire(task: Id)
    | ReleaseLease(task: Id, now: int)
    | InvalidateLease(task: Id)

  datatype UpkeepStep =
    | RequestClose(id: Id)
    | DrainRows(ids: set<Id>)
    | ChangePolicy(policy: Policy)
    | PruneStore(cutoff: int)

  datatype RestartStep =
    | RequestRestart(op: Id, immediate: bool, now: int)
    | PollRestart
    | LockRestart
    | EndRestart(ok: bool)
    | TimeoutRestart
    | CrashAndStart(helperDone: set<Id>)

  datatype Step =
    | Opens(o: OpenStep) | Closes(c: CloseStep) | Withdraws(w: TreasuryStep) | Reconciles(r: ReconcileStep)
    | Borrows(b: BorrowStep) | Tends(u: UpkeepStep) | Restarts(x: RestartStep)

  // A segment can run when its task is at the matching await; new ids are fresh.

  ghost predicate CanOpen(s: State, step: OpenStep) {
    match step
    case BeginOpen(_) => s.lock.Free?
    case CheckOpen(_, listing) => s.lock.OpenChecking? && IsListing(s.rows, listing)
    case SubmitOpen(_, newId, _) => s.lock.OpenQuoting? && Fresh(s, newId)
    case ReplyOpen(_, _) => s.lock.OpenSubmitted?
    case ConfirmOpen(_, _) => s.lock.OpenConfirming?
  }

  ghost predicate CanClose(s: State, step: CloseStep) {
    match step
    case BeginClose(_) => s.lock.Free?
    case CheckClose(_, _) => s.lock.CloseChecking?
    case SubmitClose(_, newId, _) => s.lock.CloseReading? && Fresh(s, newId)
    case ReplyClose(_, _) => s.lock.CloseSubmitted?
    case ConfirmClose(_, _) => s.lock.CloseConfirming?
  }

  ghost predicate CanWithdraw(s: State, step: TreasuryStep) {
    match step
    case BeginTreasury => s.lock.Free?
    case ListTreasury(_, todo) => s.lock.TreasuryChecking? && IsWithdrawalList(s.ops, todo)
    case ResolveWithdrawal(_, _) => s.lock.TreasuryScanning? && s.lock.todo != [] && s.lock.todo[0] in s.ops
    case SubmitWithdrawal(_, newId, _) => s.lock.TreasuryScanning? && s.lock.todo == [] && Fresh(s, newId)
    case ReplyWithdrawal(_) => s.lock.WithdrawSubmitted?
    case RefreshTreasury => s.lock.WithdrawRefreshing?
  }

  ghost predicate CanBorrow(s: State, step: BorrowStep) {
    match step
    case BeginAcquire(task, _, _) => task !in s.mem.borrowers
    case PassAcquire(task, listing, _) =>
      task in s.mem.borrowers && s.mem.borrowers[task].Waiting? && IsListing(s.rows, listing)
    case VerifyAcquire(task, _, _, _) => task in s.mem.borrowers && s.mem.borrowers[task].Verifying?
    case AbandonAcquire(task) => task in s.mem.borrowers && s.mem.borrowers[task].Waiting?
    case ReleaseLease(task, _) => task in s.mem.borrowers && s.mem.borrowers[task].Leased?
    case InvalidateLease(task) => task in s.mem.borrowers && s.mem.borrowers[task].Leased?
  }

  ghost predicate CanRestart(s: State, step: RestartStep) {
    match step
    case RequestRestart(op, _, _) => Fresh(s, op)
    case PollRestart => s.mem.restart.DrainingRequests?
    case LockRestart => s.mem.restart.AwaitingLock? && s.lock.Free?
    case EndRestart(_) => s.mem.restart.HelperCalled?
    case TimeoutRestart => s.mem.restart.DrainingRequests? || s.mem.restart.AwaitingLock?
    case CrashAndStart(_) => true
  }

  ghost predicate Enabled(s: State, step: Step) {
    match step
    case Opens(o) => CanOpen(s, o)
    case Closes(c) => CanClose(s, c)
    case Withdraws(w) => CanWithdraw(s, w)
    case Reconciles(_) => true
    case Borrows(b) => CanBorrow(s, b)
    case Tends(_) => true
    case Restarts(x) => CanRestart(s, x)
  }

  function ApplyOpen(cfg: Config, s: State, step: OpenStep): State
    requires CanOpen(s, step)
  {
    match step
    case BeginOpen(model) => OpenBegin(s, model)
    case CheckOpen(checked, listing) => OpenCheck(s, checked, listing)
    case SubmitOpen(quoted, newId, now) => OpenSubmit(s, quoted, newId, now)
    case ReplyOpen(answered, now) => OpenReply(s, answered, now)
    case ConfirmOpen(confirmed, now) => OpenConfirm(cfg, s, confirmed, now)
  }

  function ApplyClose(cfg: Config, s: State, step: CloseStep): State
    requires CanClose(s, step)
  {
    match step
    case BeginClose(id) => CloseBegin(s, id)
    case CheckClose(checked, now) => CloseCheck(s, checked, now)
    case SubmitClose(read, newId, now) => CloseRead(cfg, s, read, newId, now)
    case ReplyClose(closed, now) => CloseReply(s, closed, now)
    case ConfirmClose(confirmed, now) => CloseConfirm(cfg, s, confirmed, now)
  }

  ghost function ApplyTreasury(s: State, step: TreasuryStep): State
    requires CanWithdraw(s, step)
  {
    match step
    case BeginTreasury => TreasuryBegin(s)
    case ListTreasury(checked, todo) => TreasuryList(s, checked, todo)
    case ResolveWithdrawal(progress, receipts) => TreasuryResolve(s, progress, receipts)
    case SubmitWithdrawal(due, newId, now) => TreasurySubmit(s, due, newId, now)
    case ReplyWithdrawal(withdrawn) => WithdrawReply(s, withdrawn)
    case RefreshTreasury => WithdrawRefresh(s)
  }

  ghost function ApplyReconcile(cfg: Config, s: State, step: ReconcileStep): State {
    match step
    case FromJournal(snapshot, progress, now) => ReconcileJournal(s, snapshot, progress, now)
    case FromTruth(snapshot, read, receipts, now) => ReconcileTruth(cfg, s, snapshot, read, receipts, now)
    case FromReceipts(id, receipts, now) => ReconcileReceipts(s, id, receipts, now)
    case BindSession(id, chainId, truth) => Bind(cfg, s, id, chainId, truth)
    case NoteCandidate(id, candidate, now) => SweepNote(s, id, candidate, now)
    case AdoptSession(rowId, truth, now, retryAt) => SweepAdopt(cfg, s, rowId, truth, now, retryAt)
  }

  function ApplyBorrow(cfg: Config, s: State, step: BorrowStep): State
    requires CanBorrow(s, step)
  {
    match step
    case BeginAcquire(task, model, prewarm) => AcquireBegin(s, task, model, prewarm)
    case PassAcquire(task, listing, giveUp) => AcquirePass(s, task, listing, giveUp)
    case VerifyAcquire(task, read, now, giveUp) => AcquireVerify(cfg, s, task, read, now, giveUp)
    case AbandonAcquire(task) => AcquireAbandon(s, task)
    case ReleaseLease(task, now) => Release(s, task, now)
    case InvalidateLease(task) => Invalidate(s, task)
  }

  function ApplyUpkeep(s: State, step: UpkeepStep): State {
    match step
    case RequestClose(id) => CloseRequest(s, id)
    case DrainRows(ids) => Drain(s, ids)
    case ChangePolicy(policy) => SetPolicy(s, policy)
    case PruneStore(cutoff) => Prune(s, cutoff)
  }

  function ApplyRestart(s: State, step: RestartStep): State
    requires CanRestart(s, step)
  {
    match step
    case RequestRestart(op, immediate, now) => RestartRequest(s, op, immediate, now)
    case PollRestart => RestartPoll(s)
    case LockRestart => RestartLock(s)
    case EndRestart(ok) => RestartEnd(s, ok)
    case TimeoutRestart => RestartTimeout(s)
    case CrashAndStart(helperDone) => Reboot(s, helperDone)
  }

  ghost function Apply(cfg: Config, s: State, step: Step): State
    requires Enabled(s, step)
  {
    match step
    case Opens(o) => ApplyOpen(cfg, s, o)
    case Closes(c) => ApplyClose(cfg, s, c)
    case Withdraws(w) => ApplyTreasury(s, w)
    case Reconciles(r) => ApplyReconcile(cfg, s, r)
    case Borrows(b) => ApplyBorrow(cfg, s, b)
    case Tends(u) => ApplyUpkeep(s, u)
    case Restarts(x) => ApplyRestart(s, x)
  }

  /** A process start on an empty store. */
  ghost predicate Init(s: State) {
    s == State(map[], map[], s.policy, Free, FRESH_MEMORY, [])
  }

  /** `steps` leads from `s` to `t`. */
  ghost predicate Run(cfg: Config, s: State, steps: seq<Step>, t: State)
    decreases |steps|
  {
    if steps == [] then s == t
    else Enabled(s, steps[0]) && Run(cfg, Apply(cfg, s, steps[0]), steps[1..], t)
  }
}
