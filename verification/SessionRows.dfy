/**
 Session rows, withdrawal and restart operations, and the replies the gateway gets from its node.

 Identifiers (row ids, operation ids, on-chain ids, models, providers, hashes, task ids) are opaque:
 the protocol only compares them, so they are natural numbers here.
 */
module SessionRows {
  import opened Options

  type Id = nat

  /** The `state` column of a session row. */
  datatype SessionState =
    | Opening | OpenUnknown | Open | Quarantined | Orphaned
    | Draining | Closing | ClosePending | Closed | Failed

  datatype TxKind = ApprovalTx | OpenTx | CloseTx | WithdrawTx

  /** A recorded transaction; `wellFormed` says that its hash has the shape of a hash. */
  datatype Tx = Tx(kind: TxKind, hash: Id, wellFormed: bool)

  datatype Row = Row(
    id: Id, state: SessionState, chainId: Option<Id>,
    model: Id, provider: Id, bid: Id,
    createdAt: int, lastUsed: int, endsAt: int, stake: int,
    failures: nat, retryAt: int,
    transactions: seq<Tx>,
    closeOp: Option<Id>, closeTransactions: seq<Tx>, closeTx: Option<Tx>,
    candidates: set<Id>)

  datatype OpKind = Withdrawal | NodeRestart

  datatype OpState =
    | Queued | OpDraining | Restarting | Interrupted
    | Submitting | Uncertain | Pending | Succeeded | OpFailed

  datatype Op = Op(id: Id, kind: OpKind, state: OpState, createdAt: int, transactions: seq<Tx>)

  /** Whether an error is known to precede any submission. */
  datatype Outcome = NotSubmitted | UnknownOutcome

  /** `Admission` stands for the four codes on which `acquire` gives up instead of quarantining. */
  datatype Code = ProviderDeclined | Admission | OtherCode

  datatype Failure = Failure(code: Code, outcome: Outcome, transactions: seq<Tx>)

  /** What an awaited call produces: a value, a gateway error, or cancellation. */
  datatype Reply<+T> = Ok(value: T) | Err(failure: Failure) | Cancelled

  /** The chain's description of a session, as the node reports it. */
  datatype Truth = Truth(
    user: Id, model: Id, provider: Id, bid: Id, id: Id,
    endsAt: int, closedAt: int, stake: int, openedAt: int)

  /** The native operation journal as the helper serves it. */
  datatype Stage = StageNotSubmitted | StageSubmitting(kind: TxKind)

  datatype Progress = Progress(
    stage: Stage, completed: bool, httpStatus: nat, sessionId: Option<Id>, transactions: seq<Tx>)

  /** States in which a wallet transaction of the row may still be in flight. */
  predicate RowUnresolved(row: Row) {
    row.state.Opening? || row.state.OpenUnknown? || row.state.Closing? || row.state.ClosePending?
  }

  predicate OpUnresolved(op: Op) {
    op.kind.Withdrawal? && (op.state.Submitting? || op.state.Uncertain? || op.state.Pending?)
  }

  /** Rows that the live view of the store returns. */
  predicate Live(row: Row) {
    !row.state.Closed? && !row.state.Failed?
  }

  function Min(x: int, y: int): int {
    if x < y then x else y
  }

  function Pow2(n: nat): nat {
    if n == 0 then 1 else 2 * Pow2(n - 1)
  }

  /** The backoff bookkeeping of `mark_error`. */
  function MarkError(row: Row, now: int): Row {
    var failures := row.failures + 1;
    row.(failures := failures, retryAt := now + Min(300, Pow2(if failures < 8 then failures else 8)))
  }

  /** Identity check of a chain answer against the row it should describe. */
  predicate ValidTruth(wallet: Id, row: Row, truth: Truth) {
    && truth.user == wallet
    && truth.model == row.model
    && truth.provider == row.provider
    && truth.bid == row.bid
    && row.chainId == Some(truth.id)
    && truth.endsAt >= 0 && truth.closedAt >= 0 && truth.stake >= 0 && truth.openedAt >= 0
  }

  function RecordClosed(row: Row, truth: Truth): Row {
    row.(state := Closed, stake := truth.stake)
  }

  datatype TxState = TxUnknown | TxSucceeded | TxFailed | TxPending

  /** A receipt lookup: none yet, or mined with a status. */
  type Receipt = Option<bool>

  /** Specification of `transaction_state`. */
  ghost function TransactionState(txs: seq<Tx>, receipts: seq<Receipt>): TxState
    requires |txs| == |receipts|
  {
    if txs == [] || exists i :: 0 <= i < |txs| && !txs[i].wellFormed then TxUnknown
    else if exists i :: 0 <= i < |receipts| && receipts[i] == Some(true) then TxSucceeded
    else if forall i :: 0 <= i < |receipts| ==> receipts[i] == Some(false) then TxFailed
    else TxPending
  }

  /** The receipt loop: it stops at the first malformed hash, and one mined success wins. */
  method ReadTransactionState(txs: seq<Tx>, receipts: seq<Receipt>) returns (r: TxState)
    requires |txs| == |receipts|
    ensures r == TransactionState(txs, receipts)
  {
    if txs == [] {
      return TxUnknown;
    }
    var anySucceeded, allReverted := false, true;
    for i := 0 to |txs|
      invariant forall k :: 0 <= k < i ==> txs[k].wellFormed
      invariant anySucceeded <==> exists k :: 0 <= k < i && receipts[k] == Some(true)
      invariant allReverted <==> forall k :: 0 <= k < i ==> receipts[k] == Some(false)
    {
      if !txs[i].wellFormed {
        return TxUnknown;
      }
      anySucceeded := anySucceeded || receipts[i] == Some(true);
      allReverted := allReverted && receipts[i] == Some(false);
    }
    r := if anySucceeded then TxSucceeded else if allReverted then TxFailed else TxPending;
  }

  /** Pass 1 of `reconcile`: what the native journal says about an uncertain row. */
  function JournalRow(row: Row, progress: Progress, now: int): Row {
    var silent := progress.completed && progress.stage.StageNotSubmitted?;
    if row.state.OpenUnknown? then
      var row := row.(transactions := progress.transactions);
      if progress.sessionId.Some? then row.(chainId := progress.sessionId)
      else if silent then row.(state := Failed)
      else row
    else
      var row := row.(closeTransactions := progress.transactions);
      if silent then row.(state := Draining, retryAt := now + 30) else row
  }

  function CloseTxs(row: Row): seq<Tx> {
    if row.closeTransactions != [] then row.closeTransactions
    else if row.closeTx.Some? then [row.closeTx.value] else []
  }

  function OpenTxs(txs: seq<Tx>): seq<Tx> {
    if txs == [] then []
    else if txs[0].kind.OpenTx? then [txs[0]] + OpenTxs(txs[1..])
    else OpenTxs(txs[1..])
  }

  /** Pass 2 of `reconcile` for a session that the chain reports as still running. */
  function RunningRow(row: Row, truth: Truth, closeState: TxState, now: int): Row {
    var row' :=
      if row.state.OpenUnknown? || row.state.Quarantined? then row.(state := Open)
      else if row.state.ClosePending? && closeState.TxFailed? then row.(state := Draining, retryAt := now + 30)
      else row;
    row'.(endsAt := truth.endsAt, stake := truth.stake)
  }

  /** What startup does to a row that was left mid-submission. */
  function RecoverRow(row: Row): Row {
    if row.state.Opening? then row.(state := OpenUnknown)
    else if row.state.Closing? then row.(state := ClosePending)
    else row
  }

  /** What startup does to an operation; `helperDone` is the helper's answer for a restart. */
  function RecoverOp(op: Op, helperDone: bool): Op {
    if op.kind.Withdrawal? then
      if op.state.Queued? || op.state.Submitting? then op.(state := Uncertain) else op
    else if op.state.Queued? || op.state.OpDraining? || op.state.Restarting? then
      op.(state := if helperDone then Succeeded else Interrupted)
    else if op.state.Interrupted? && helperDone then op.(state := Succeeded)
    else op
  }

  datatype Policy = Policy(
    paused: bool, revision: nat, maxSessions: nat,
    models: map<Id, nat>,  // enabled models and the session cap of each
    allowlistOnly: bool, allow: set<Id>, deny: set<Id>,
    maxSessionStake: int, maxTotalStake: int, minLiquid: int, minEth: int)

  predicate Permits(policy: Policy, provider: Id) {
    provider !in policy.deny && (!policy.allowlistOnly || provider in policy.allow)
  }

  function SumStakes(rows: seq<Row>): int {
    if rows == [] then 0 else rows[0].stake + SumStakes(rows[1..])
  }

  function CountModel(rows: seq<Row>, model: Id): nat {
    if rows == [] then 0 else (if rows[0].model == model then 1 else 0) + CountModel(rows[1..], model)
  }

  /** `listing` is what `store.sessions()` returns: every live row exactly once, in some order. */
  ghost predicate IsListing(rows: map<Id, Row>, listing: seq<Row>) {
    && (forall i :: 0 <= i < |listing| ==>
          listing[i].id in rows && rows[listing[i].id] == listing[i] && Live(listing[i]))
    && (forall i, j :: 0 <= i < j < |listing| ==> listing[i].id != listing[j].id)
    && (forall id :: id in rows && Live(rows[id]) ==> exists i :: 0 <= i < |listing| && listing[i].id == id)
  }
}
