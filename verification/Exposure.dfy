/**
 The wallet's exposure to the budget.

 The gateway runs beside a chain that opens sessions late, closes them at any time and releases stakes
 gradually.  Exposure counts live stakes, opens that may still happen, held and withdrawable amounts.  The
 preflight adds up reads taken at different instants; the sum never under-counts, so a submission keeps the
 exposure within `max_total_stake`.
 */
module Exposure {
  import opened Options
  import opened SessionRows
  import opened Protocol
  import WalletSafety
  import Leases

  /** A session on the chain; `sessions` keeps it under the operation that opened it. */
  datatype OnChain = OnChain(chainId: Id, stake: nat, closed: bool)

  datatype Chain = Chain(
    sessions: map<Id, OnChain>,
    mayOpen: map<Id, nat>,      // submitted, not on the chain, may still get there; with the limit the node enforces
    hold: nat, available: nat)

  /** `stakesRead` is what the node answered about held and withdrawable amounts during the current preflight. */
  datatype World = World(gw: State, chain: Chain, stakesRead: Option<int>)

  // ---------------------------------------------------------------- sums

  ghost function Total(m: map<Id, nat>): nat {
    if m == map[] then 0 else var k :| k in m; m[k] + Total(m - {k})
  }

  lemma {:induction false} TotalRemove(m: map<Id, nat>, k: Id)
    requires k in m
    ensures Total(m) == m[k] + Total(m - {k})
    decreases |m|
  {
    var j :| j in m && Total(m) == m[j] + Total(m - {j});
    if j != k {
      TotalRemove(m - {j}, k);
      TotalRemove(m - {k}, j);
      assert (m - {j}) - {k} == (m - {k}) - {j};
    }
  }

  lemma TotalAdd(m: map<Id, nat>, k: Id, x: nat)
    requires k !in m
    ensures Total(m[k := x]) == Total(m) + x
  {
    TotalRemove(m[k := x], k);
    assert m[k := x] - {k} == m;
  }

  /** Rows that cover every entry add up to at least as much. */
  lemma {:induction false} RowsCover(m: map<Id, nat>, listing: seq<Row>)
    requires forall i :: 0 <= i < |listing| ==> listing[i].stake >= 0
    requires forall i, j :: 0 <= i < j < |listing| ==> listing[i].id != listing[j].id
    requires forall k :: k in m ==> exists i :: 0 <= i < |listing| && listing[i].id == k && listing[i].stake >= m[k]
    ensures Total(m) <= SumStakes(listing)
    decreases |listing|
  {
    if listing != [] {
      var k := listing[0].id;
      var m' := m - {k};
      forall x | x in m' ensures exists i :: 0 <= i < |listing[1..]| && listing[1..][i].id == x && listing[1..][i].stake >= m'[x] {
        var i :| 0 <= i < |listing| && listing[i].id == x && listing[i].stake >= m[x];
        assert listing[1..][i - 1] == listing[i];
      }
      RowsCover(m', listing[1..]);
      if k in m {
        TotalRemove(m, k);
      } else {
        assert m' == m;
      }
    }
  }

  // ---------------------------------------------------------------- exposure

  predicate LiveOn(chain: Chain, id: Id) {
    id in chain.sessions && !chain.sessions[id].closed
  }

  ghost function LiveStakes(chain: Chain): map<Id, nat> {
    map id | id in chain.sessions && !chain.sessions[id].closed :: chain.sessions[id].stake
  }

  ghost function ExposureOf(chain: Chain): nat {
    Total(LiveStakes(chain)) + Total(chain.mayOpen) + chain.hold + chain.available
  }

  /** The operation opened nothing and will not. */
  predicate NeverOpens(chain: Chain, id: Id) {
    id !in chain.sessions && id !in chain.mayOpen
  }

  /** A row, stored or held in memory, that may be written without hiding a live session or a possible open. */
  predicate Covers(chain: Chain, row: Row) {
    && row.stake >= 0
    && (LiveOn(chain, row.id) ==> Live(row) && row.stake >= chain.sessions[row.id].stake)
    && (row.id in chain.mayOpen ==>
          (row.state.Opening? || row.state.OpenUnknown?) && row.stake >= chain.mayOpen[row.id])
    && (row.state.Failed? ==> NeverOpens(chain, row.id))
  }

  /** The copy of a row in the hands of the lock holder. */
  function HolderCopy(lock: Holder): Option<Row> {
    match lock
    case OpenSubmitted(_, _, row) => Some(row)
    case OpenConfirming(_, _, row) => Some(row)
    case CloseReading(row) => Some(row)
    case CloseSubmitted(row) => Some(row)
    case CloseConfirming(row) => Some(row)
    case _ => None
  }

  ghost predicate BorrowerCovers(chain: Chain, b: Borrower) {
    match b
    case Waiting(_, _) => true
    case Verifying(_, _, row, rest) =>
      row.state.Open? && Covers(chain, row)
      && forall i :: 0 <= i < |rest| && rest[i].state.Open? ==> Covers(chain, rest[i])
    case Leased(id) => id !in chain.mayOpen
  }

  ghost predicate Covered(s: State, chain: Chain) {
    && (forall id :: id in s.rows ==> s.rows[id].id == id && Covers(chain, s.rows[id]))
    && (forall id :: LiveOn(chain, id) || id in chain.mayOpen ==> id in s.rows)
    && (HolderCopy(s.lock).Some? ==> Covers(chain, HolderCopy(s.lock).value))
    && (forall t :: t in s.mem.borrowers ==> BorrowerCovers(chain, s.mem.borrowers[t]))
    && (forall id :: id in chain.mayOpen ==> id !in chain.sessions)
  }

  // ---------------------------------------------------------------- what the environment may and may not say

  /** If the row's operation opened a session, the identity-checked answer is about that session. */
  ghost predicate OwnAnswer(cfg: Config, chain: Chain, row: Row, read: Reply<Truth>) {
    read.Ok? && ValidTruth(cfg.wallet, row, read.value) ==>
      && row.id !in chain.mayOpen
      && (row.id in chain.sessions ==>
            && read.value.stake == chain.sessions[row.id].stake
            && (read.value.closedAt != 0 ==> chain.sessions[row.id].closed))
  }

  /** A new operation id is not the id of anything the gateway or the chain knows. */
  ghost predicate Unused(w: World, id: Id) {
    && id !in w.chain.sessions && id !in w.chain.mayOpen
    && (forall t :: t in w.gw.mem.borrowers ==>
          match w.gw.mem.borrowers[t]
          case Waiting(_, _) => true
          case Verifying(_, _, row, rest) => row.id != id && forall i :: 0 <= i < |rest| ==> rest[i].id != id
          case Leased(x) => x != id)
  }

  /** `not_submitted` means that; a failed confirming read is classified as unknown. */
  ghost predicate HonestOpen(cfg: Config, w: World, step: OpenStep)
    requires CanOpen(w.gw, step)
  {
    match step
    case SubmitOpen(quoted, newId, _) =>
      Unused(w, newId) && (quoted.Ok? ==> w.stakesRead == Some(quoted.value.hold + quoted.value.available))
    case ReplyOpen(answered, _) =>
      answered.Err? && answered.failure.outcome.NotSubmitted? ==> NeverOpens(w.chain, w.gw.lock.row.id)
    case ConfirmOpen(confirmed, _) =>
      && OwnAnswer(cfg, w.chain, w.gw.lock.row, confirmed)
      && (confirmed.Err? ==> confirmed.failure.outcome.UnknownOutcome?)
    case _ => true
  }

  ghost predicate HonestClose(cfg: Config, w: World, step: CloseStep)
    requires CanClose(w.gw, step)
  {
    match step
    case SubmitClose(read, _, _) => OwnAnswer(cfg, w.chain, w.gw.lock.row, read)
    case ConfirmClose(confirmed, _) => OwnAnswer(cfg, w.chain, w.gw.lock.row, confirmed)
    case _ => true
  }

  /** Journal and receipts report a dead open only if it is dead; an adopted row's id is no operation's. */
  ghost predicate HonestReconcile(cfg: Config, w: World, step: ReconcileStep) {
    match step
    case FromJournal(snapshot, progress, _) =>
      (&& progress.Some? && progress.value.completed && progress.value.stage.StageNotSubmitted?
       && snapshot.state.OpenUnknown?) ==> NeverOpens(w.chain, snapshot.id)
    case FromTruth(snapshot, read, _, _) => Unchanged(w.gw, snapshot) ==> OwnAnswer(cfg, w.chain, snapshot, read)
    case FromReceipts(id, receipts, now) =>
      (&& id in w.gw.rows && w.gw.rows[id].state.OpenUnknown?
       && ReconcileReceipts(w.gw, id, receipts, now).rows[id].state.Failed?) ==>
        NeverOpens(w.chain, id)
    case BindSession(id, chainId, truth) =>
      BindAllowed(cfg, w.gw, id, chainId, truth) ==>
        OwnAnswer(cfg, w.chain, w.gw.rows[id].(chainId := Some(chainId)), Ok(truth))
    case NoteCandidate(_, _, _) => true
    case AdoptSession(rowId, _, _, _) => NeverOpens(w.chain, rowId)
  }

  ghost predicate Honest(cfg: Config, w: World, step: Step)
    requires Enabled(w.gw, step)
  {
    match step
    case Opens(o) => HonestOpen(cfg, w, o)
    case Closes(c) => HonestClose(cfg, w, c)
    case Withdraws(_) => true
    case Reconciles(r) => HonestReconcile(cfg, w, r)
    case Borrows(VerifyAcquire(task, read, _, _)) =>
      OwnAnswer(cfg, w.chain, w.gw.mem.borrowers[task].row, read)
    case Borrows(_) => true
    case Tends(ChangePolicy(policy)) => policy.maxTotalStake == w.gw.policy.maxTotalStake
    case Tends(_) => true
    case Restarts(_) => true
  }

  // ---------------------------------------------------------------- steps of the world

  /** A submitted open may happen from now on, whatever the gateway comes to believe about it. */
  ghost function Settle(chain: Chain, s: State, t: State): Chain {
    if s.lock.OpenQuoting? && t.lock.OpenSubmitted? && t.lock.row.stake >= 0
    then chain.(mayOpen := chain.mayOpen[t.lock.row.id := t.lock.row.stake]) else chain
  }

  ghost function GatewayStep(cfg: Config, w: World, step: Step): World
    requires Enabled(w.gw, step)
  {
    var t := Apply(cfg, w.gw, step);
    World(t, Settle(w.chain, w.gw, t), if w.gw.lock.OpenQuoting? && t.lock == w.gw.lock then w.stakesRead else None)
  }

  datatype ChainStep =
    | ReadStakes
    | OpenLands(id: Id, chainId: Id, stake: nat)
    | OpenDies(id: Id)                                 // refused, reverted, or never tried
    | SessionCloses(id: Id, held: nat, released: nat)
    | StakeMatures(amount: nat)
    | WithdrawalLands(amount: nat)

  /** No session has this chain id. */
  predicate Unopened(chain: Chain, chainId: Id) {
    forall x :: x in chain.sessions ==> chain.sessions[x].chainId != chainId
  }

  predicate ChainCan(w: World, step: ChainStep) {
    match step
    case ReadStakes => w.gw.lock.OpenQuoting?
    // the node refuses a stake above the limit it was given
    case OpenLands(id, chainId, stake) =>
      id in w.chain.mayOpen && stake <= w.chain.mayOpen[id] && Unopened(w.chain, chainId)
    case OpenDies(id) => id in w.chain.mayOpen
    case SessionCloses(id, held, released) =>
      LiveOn(w.chain, id) && held + released <= w.chain.sessions[id].stake
    case StakeMatures(amount) => amount <= w.chain.hold
    case WithdrawalLands(amount) => amount <= w.chain.available
  }

  function ChainApply(w: World, step: ChainStep): World
    requires ChainCan(w, step)
  {
    var chain := w.chain;
    match step
    case ReadStakes => w.(stakesRead := Some(chain.hold + chain.available))
    case OpenLands(id, chainId, stake) =>
      w.(chain := chain.(sessions := chain.sessions[id := OnChain(chainId, stake, false)], mayOpen := chain.mayOpen - {id}))
    case OpenDies(id) => w.(chain := chain.(mayOpen := chain.mayOpen - {id}))
    case SessionCloses(id, held, released) =>
      w.(chain := chain.(sessions := chain.sessions[id := chain.sessions[id].(closed := true)],
                         hold := chain.hold + held, available := chain.available + released))
    case StakeMatures(amount) =>
      w.(chain := chain.(hold := chain.hold - amount, available := chain.available + amount))
    case WithdrawalLands(amount) => w.(chain := chain.(available := chain.available - amount))
  }

  // ---------------------------------------------------------------- coverage is kept

  lemma PutCovered(s: State, chain: Chain, row: Row)
    requires Covered(s, chain) && Covers(chain, row)
    ensures Covered(PutRow(s, row), chain)
  {
  }

  /** Fewer possible opens are easier to cover. */
  lemma ForgetCovered(s: State, chain: Chain, mayOpen: map<Id, nat>)
    requires Covered(s, chain)
    requires forall id :: id in mayOpen ==> id in chain.mayOpen && mayOpen[id] == chain.mayOpen[id]
    ensures Covered(s, chain.(mayOpen := mayOpen))
  {
    var chain' := chain.(mayOpen := mayOpen);
    forall row: Row | Covers(chain, row) ensures Covers(chain', row) {}
    forall t | t in s.mem.borrowers ensures BorrowerCovers(chain', s.mem.borrowers[t]) {
      assert BorrowerCovers(chain, s.mem.borrowers[t]);
    }
  }

  /** The lock changes hands. */
  lemma LockCovered(s: State, chain: Chain, lock: Holder)
    requires Covered(s, chain)
    requires HolderCopy(lock).Some? ==> Covers(chain, HolderCopy(lock).value)
    ensures Covered(s.(lock := lock), chain)
  {
  }

  lemma PlainCovered(s: State, chain: Chain, t: State)
    requires Covered(t, chain) && !(s.lock.OpenQuoting? && t.lock.OpenSubmitted?)
    ensures Covered(t, Settle(chain, s, t))
  {
  }

  lemma OpenErrorCovered(s: State, chain: Chain, model: Id, attempt: nat, row: Row, failure: Failure, now: int)
    requires Covered(s, chain) && Covers(chain, row) && !s.lock.OpenQuoting?
    requires failure.outcome.NotSubmitted? ==> NeverOpens(chain, row.id)
    ensures var t := OpenError(s, model, attempt, row, failure, now); Covered(t, Settle(chain, s, t))
  {
    var t := OpenError(s, model, attempt, row, failure, now);
    var row' := MarkError(
      row.(state := if failure.outcome.NotSubmitted? then Failed else OpenUnknown,
           transactions := if failure.transactions != [] then failure.transactions else row.transactions),
      now);
    PutCovered(s, chain, row');
    LockCovered(PutRow(s, row'), chain, t.lock);
    PlainCovered(s, chain, t);
  }

  lemma OpenReplyCovered(cfg: Config, w: World, answered: Reply<OpenAnswer>, now: int)
    requires Covered(w.gw, w.chain) && w.gw.lock.OpenSubmitted? && HonestOpen(cfg, w, ReplyOpen(answered, now))
    ensures var t := OpenReply(w.gw, answered, now); Covered(t, Settle(w.chain, w.gw, t))
  {
    var s := w.gw;
    var OpenSubmitted(model, attempt, row) := s.lock;
    var t := OpenReply(s, answered, now);
    match answered
    case Ok(answer) =>
      if answer.sessionId.None? {
        OpenErrorCovered(s, w.chain, model, attempt, row, PROTOCOL_ERROR, now);
      } else {
        var row' := row.(chainId := answer.sessionId, transactions := answer.transactions);
        PutCovered(s, w.chain, row');
        LockCovered(PutRow(s, row'), w.chain, t.lock);
        PlainCovered(s, w.chain, t);
      }
    case Err(failure) => OpenErrorCovered(s, w.chain, model, attempt, row, failure, now);
    case Cancelled =>
      PutCovered(s, w.chain, row.(state := OpenUnknown));
      LockCovered(PutRow(s, row.(state := OpenUnknown)), w.chain, Free);
      PlainCovered(s, w.chain, t);
  }

  lemma OpenConfirmCovered(cfg: Config, w: World, confirmed: Reply<Truth>, now: int)
    requires Covered(w.gw, w.chain) && w.gw.lock.OpenConfirming? && HonestOpen(cfg, w, ConfirmOpen(confirmed, now))
    ensures var t := OpenConfirm(cfg, w.gw, confirmed, now); Covered(t, Settle(w.chain, w.gw, t))
  {
    var s := w.gw;
    var OpenConfirming(model, attempt, row) := s.lock;
    var t := OpenConfirm(cfg, s, confirmed, now);
    match confirmed
    case Ok(truth) =>
      if ValidTruth(cfg.wallet, row, truth) {
        var row' := t.rows[row.id];
        PutCovered(s, w.chain, row');
        LockCovered(PutRow(s, row'), w.chain, Free);
        PlainCovered(s, w.chain, t);
      } else {
        OpenErrorCovered(s, w.chain, model, attempt, row, PROTOCOL_ERROR, now);
      }
    case Err(failure) => OpenErrorCovered(s, w.chain, model, attempt, row, failure, now);
    case Cancelled =>
      PutCovered(s, w.chain, row.(state := OpenUnknown));
      LockCovered(PutRow(s, row.(state := OpenUnknown)), w.chain, Free);
      PlainCovered(s, w.chain, t);
  }

  /** A new possible open, under an id that nothing else carries. */
  lemma OpenSubmitCovered(cfg: Config, w: World, quoted: Reply<Quote>, newId: Id, now: int)
    requires Covered(w.gw, w.chain) && CanOpen(w.gw, SubmitOpen(quoted, newId, now))
    requires HonestOpen(cfg, w, SubmitOpen(quoted, newId, now))
    ensures var t := OpenSubmit(w.gw, quoted, newId, now); Covered(t, Settle(w.chain, w.gw, t))
  {
    var s := w.gw;
    var t := OpenSubmit(s, quoted, newId, now);
    if t.lock.OpenSubmitted? {
      var row := t.lock.row;
      var chain' := w.chain.(mayOpen := w.chain.mayOpen[newId := row.stake]);
      forall r: Row | Covers(w.chain, r) && r.id != newId ensures Covers(chain', r) {}
      forall b | b in s.mem.borrowers ensures BorrowerCovers(chain', s.mem.borrowers[b]) {
        assert BorrowerCovers(w.chain, s.mem.borrowers[b]);
      }
      assert Covered(t, chain');
    } else {
      LockCovered(s, w.chain, Free);
      PlainCovered(s, w.chain, t);
    }
  }

  lemma OpenCovered(cfg: Config, w: World, step: OpenStep)
    requires Covered(w.gw, w.chain) && CanOpen(w.gw, step) && HonestOpen(cfg, w, step)
    ensures var t := ApplyOpen(cfg, w.gw, step); Covered(t, Settle(w.chain, w.gw, t))
  {
    var t := ApplyOpen(cfg, w.gw, step);
    match step
    case BeginOpen(model) => LockCovered(w.gw, w.chain, t.lock); PlainCovered(w.gw, w.chain, t);
    case CheckOpen(_, _) => LockCovered(w.gw, w.chain, t.lock); PlainCovered(w.gw, w.chain, t);
    case SubmitOpen(quoted, newId, now) => OpenSubmitCovered(cfg, w, quoted, newId, now);
    case ReplyOpen(answered, now) => OpenReplyCovered(cfg, w, answered, now);
    case ConfirmOpen(confirmed, now) => OpenConfirmCovered(cfg, w, confirmed, now);
  }

  /** A write followed by a change of the lock to a holder without a copy, or with the written row. */
  lemma WriteCovered(s: State, chain: Chain, t: State, row: Row)
    requires Covered(s, chain) && Covers(chain, row)
    requires t == PutRow(s, row).(lock := t.lock, calls := t.calls)
    requires HolderCopy(t.lock).None? || HolderCopy(t.lock) == Some(row)
    requires !t.lock.OpenSubmitted?
    ensures Covered(t, Settle(chain, s, t))
  {
    PutCovered(s, chain, row);
    LockCovered(PutRow(s, row), chain, t.lock);
    PlainCovered(s, chain, t);
  }

  lemma QuietCovered(s: State, chain: Chain, t: State)
    requires Covered(s, chain) && t == s.(ops := t.ops, lock := t.lock, calls := t.calls)
    requires HolderCopy(t.lock).Some? ==> Covers(chain, HolderCopy(t.lock).value)
    requires !t.lock.OpenSubmitted?
    ensures Covered(t, Settle(chain, s, t))
  {
    LockCovered(s, chain, t.lock);
    PlainCovered(s, chain, t);
  }

  /** A reserved session is never one that may still open. */
  ghost predicate ActiveKnown(s: State, chain: Chain) {
    forall id :: id in s.mem.active ==> id !in chain.mayOpen
  }

  lemma CloseCheckCovered(s: State, chain: Chain, checked: Reply<()>, now: int)
    requires Covered(s, chain) && ActiveKnown(s, chain) && s.lock.CloseChecking?
    ensures var t := CloseCheck(s, checked, now); Covered(t, Settle(chain, s, t))
  {
    var t := CloseCheck(s, checked, now);
    if t.rows == s.rows {
      QuietCovered(s, chain, t);
    } else {
      WriteCovered(s, chain, t, t.rows[s.lock.id]);
    }
  }

  lemma CloseReadCovered(cfg: Config, s: State, chain: Chain, read: Reply<Truth>, newOp: Id, now: int)
    requires Covered(s, chain) && s.lock.CloseReading? && OwnAnswer(cfg, chain, s.lock.row, read)
    ensures var t := CloseRead(cfg, s, read, newOp, now); Covered(t, Settle(chain, s, t))
  {
    var t := CloseRead(cfg, s, read, newOp, now);
    if read.Cancelled? {
      QuietCovered(s, chain, t);
    } else {
      WriteCovered(s, chain, t, t.rows[s.lock.row.id]);
    }
  }

  lemma CloseReplyCovered(s: State, chain: Chain, closed: Reply<Option<Tx>>, now: int)
    requires Covered(s, chain) && s.lock.CloseSubmitted? && s.lock.row.state.Closing?
    ensures var t := CloseReply(s, closed, now); Covered(t, Settle(chain, s, t))
  {
    var t := CloseReply(s, closed, now);
    WriteCovered(s, chain, t, t.rows[s.lock.row.id]);
  }

  lemma CloseConfirmCovered(cfg: Config, s: State, chain: Chain, confirmed: Reply<Truth>, now: int)
    requires Covered(s, chain) && s.lock.CloseConfirming? && s.lock.row.state.ClosePending?
    requires OwnAnswer(cfg, chain, s.lock.row, confirmed)
    ensures var t := CloseConfirm(cfg, s, confirmed, now); Covered(t, Settle(chain, s, t))
  {
    var t := CloseConfirm(cfg, s, confirmed, now);
    if confirmed.Ok? && ValidTruth(cfg.wallet, s.lock.row, confirmed.value) && confirmed.value.closedAt == 0 {
      QuietCovered(s, chain, t);
    } else {
      WriteCovered(s, chain, t, t.rows[s.lock.row.id]);
    }
  }

  /** The lock holder's copy has the state it wrote last. */
  predicate HolderState(lock: Holder) {
    && (lock.CloseSubmitted? ==> lock.row.state.Closing?)
    && (lock.CloseConfirming? ==> lock.row.state.ClosePending?)
  }

  lemma CloseCovered(cfg: Config, w: World, step: CloseStep)
    requires Covered(w.gw, w.chain) && ActiveKnown(w.gw, w.chain) && HolderState(w.gw.lock)
    requires CanClose(w.gw, step) && HonestClose(cfg, w, step)
    ensures var t := ApplyClose(cfg, w.gw, step); Covered(t, Settle(w.chain, w.gw, t)) && HolderState(t.lock)
  {
    match step
    case BeginClose(id) => QuietCovered(w.gw, w.chain, CloseBegin(w.gw, id));
    case CheckClose(checked, now) => CloseCheckCovered(w.gw, w.chain, checked, now);
    case SubmitClose(read, newId, now) => CloseReadCovered(cfg, w.gw, w.chain, read, newId, now);
    case ReplyClose(closed, now) => CloseReplyCovered(w.gw, w.chain, closed, now);
    case ConfirmClose(confirmed, now) => CloseConfirmCovered(cfg, w.gw, w.chain, confirmed, now);
  }

  lemma TreasuryCovered(s: State, chain: Chain, step: TreasuryStep)
    requires Covered(s, chain) && CanWithdraw(s, step)
    ensures var t := ApplyTreasury(s, step); Covered(t, Settle(chain, s, t))
  {
    QuietCovered(s, chain, ApplyTreasury(s, step));
  }

  /** A write by a task without the lock. */
  lemma TouchCovered(s: State, chain: Chain, row: Row)
    requires Covered(s, chain) && Covers(chain, row)
    ensures Covered(PutRow(s, row), Settle(chain, s, PutRow(s, row)))
  {
    PutCovered(s, chain, row);
    PlainCovered(s, chain, PutRow(s, row));
  }

  lemma JournalCovered(cfg: Config, w: World, snapshot: Row, progress: Option<Progress>, now: int)
    requires Covered(w.gw, w.chain) && HonestReconcile(cfg, w, FromJournal(snapshot, progress, now))
    ensures var t := ReconcileJournal(w.gw, snapshot, progress, now); Covered(t, Settle(w.chain, w.gw, t))
  {
    var t := ReconcileJournal(w.gw, snapshot, progress, now);
    if t == w.gw {
      PlainCovered(w.gw, w.chain, t);
    } else {
      TouchCovered(w.gw, w.chain, JournalRow(snapshot, progress.value, now));
    }
  }

  /** The row that a still running session leaves, whatever the receipts say. */
  lemma RunningCovered(cfg: Config, w: World, snapshot: Row, truth: Truth, closeState: TxState, now: int)
    requires Covered(w.gw, w.chain) && OwnAnswer(cfg, w.chain, snapshot, Ok(truth))
    requires Unchanged(w.gw, snapshot) && ValidTruth(cfg.wallet, snapshot, truth)
    ensures var t := PutRow(w.gw, RunningRow(snapshot, truth, closeState, now)); Covered(t, Settle(w.chain, w.gw, t))
  {
    hide Total;
    TouchCovered(w.gw, w.chain, RunningRow(snapshot, truth, closeState, now));
  }

  lemma ClosedCovered(cfg: Config, w: World, snapshot: Row, truth: Truth)
    requires Covered(w.gw, w.chain) && OwnAnswer(cfg, w.chain, snapshot, Ok(truth))
    requires Unchanged(w.gw, snapshot) && ValidTruth(cfg.wallet, snapshot, truth) && truth.closedAt != 0
    ensures var t := PutRow(w.gw, RecordClosed(snapshot, truth)); Covered(t, Settle(w.chain, w.gw, t))
  {
    hide Total;
    TouchCovered(w.gw, w.chain, RecordClosed(snapshot, truth));
  }

  lemma MarkedCovered(w: World, snapshot: Row, now: int)
    requires Covered(w.gw, w.chain) && Unchanged(w.gw, snapshot)
    ensures var t := PutRow(w.gw, MarkError(snapshot, now)); Covered(t, Settle(w.chain, w.gw, t))
  {
    hide Total;
    TouchCovered(w.gw, w.chain, MarkError(snapshot, now));
  }

  lemma TruthCovered(cfg: Config, w: World, snapshot: Row, read: Reply<Truth>, receipts: Reply<seq<Receipt>>, now: int)
    requires Covered(w.gw, w.chain) && (Unchanged(w.gw, snapshot) ==> OwnAnswer(cfg, w.chain, snapshot, read))
    ensures var t := ReconcileTruth(cfg, w.gw, snapshot, read, receipts, now); Covered(t, Settle(w.chain, w.gw, t))
  {
    hide Covered;
    hide Settle;
    hide Covers;
    hide PutRow;
    PlainCovered(w.gw, w.chain, w.gw);
    if Unchanged(w.gw, snapshot) && snapshot.chainId.Some? {
      MarkedCovered(w, snapshot, now);
      if read.Ok? && ValidTruth(cfg.wallet, snapshot, read.value) {
        if read.value.closedAt != 0 {
          ClosedCovered(cfg, w, snapshot, read.value);
        }
        RunningCovered(cfg, w, snapshot, read.value, CloseTxState(snapshot, receipts), now);
      }
    }
  }

  lemma ReceiptsCovered(cfg: Config, w: World, id: Id, receipts: Reply<seq<Receipt>>, now: int)
    requires Covered(w.gw, w.chain) && HonestReconcile(cfg, w, FromReceipts(id, receipts, now))
    ensures var t := ReconcileReceipts(w.gw, id, receipts, now); Covered(t, Settle(w.chain, w.gw, t))
  {
    var t := ReconcileReceipts(w.gw, id, receipts, now);
    PlainCovered(w.gw, w.chain, w.gw);
    if id in w.gw.rows {
      TouchCovered(w.gw, w.chain, MarkError(w.gw.rows[id], now));
      if NeverOpens(w.chain, id) {
        TouchCovered(w.gw, w.chain, w.gw.rows[id].(state := Failed));
      }
    }
  }

  lemma BindCovered(cfg: Config, w: World, id: Id, chainId: Id, truth: Truth)
    requires Covered(w.gw, w.chain) && HonestReconcile(cfg, w, BindSession(id, chainId, truth))
    ensures var t := Bind(cfg, w.gw, id, chainId, truth); Covered(t, Settle(w.chain, w.gw, t))
  {
    if BindAllowed(cfg, w.gw, id, chainId, truth) {
      TouchCovered(w.gw, w.chain, Bind(cfg, w.gw, id, chainId, truth).rows[id]);
    } else {
      PlainCovered(w.gw, w.chain, w.gw);
    }
  }

  lemma NoteCovered(s: State, chain: Chain, id: Id, candidate: Option<Id>, now: int)
    requires Covered(s, chain)
    ensures var t := SweepNote(s, id, candidate, now); Covered(t, Settle(chain, s, t))
  {
    var t := SweepNote(s, id, candidate, now);
    PlainCovered(s, chain, s);
    if id in s.rows {
      TouchCovered(s, chain, t.rows[id]);
      assert PutRow(s, s.rows[id]) == s by { assert s.rows[id := s.rows[id]] == s.rows; }
    }
  }

  /** An adopted row only adds to what is counted. */
  lemma AdoptCovered(cfg: Config, s: State, chain: Chain, rowId: Id, truth: Truth, now: int, retryAt: int)
    requires Covered(s, chain) && NeverOpens(chain, rowId)
    ensures var t := SweepAdopt(cfg, s, rowId, truth, now, retryAt); Covered(t, Settle(chain, s, t))
  {
    var t := SweepAdopt(cfg, s, rowId, truth, now, retryAt);
    if t == s {
      PlainCovered(s, chain, s);
    } else {
      TouchCovered(s, chain, t.rows[rowId]);
    }
  }

  lemma ReconcileCovered(cfg: Config, w: World, step: ReconcileStep)
    requires Covered(w.gw, w.chain) && HonestReconcile(cfg, w, step)
    ensures var t := ApplyReconcile(cfg, w.gw, step); Covered(t, Settle(w.chain, w.gw, t))
  {
    match step
    case FromJournal(snapshot, progress, now) => JournalCovered(cfg, w, snapshot, progress, now);
    case FromTruth(snapshot, read, receipts, now) => TruthCovered(cfg, w, snapshot, read, receipts, now);
    case FromReceipts(id, receipts, now) => ReceiptsCovered(cfg, w, id, receipts, now);
    case BindSession(id, chainId, truth) => BindCovered(cfg, w, id, chainId, truth);
    case NoteCandidate(id, candidate, now) => NoteCovered(w.gw, w.chain, id, candidate, now);
    case AdoptSession(rowId, truth, now, retryAt) => AdoptCovered(cfg, w.gw, w.chain, rowId, truth, now, retryAt);
  }

  lemma {:induction false} ScanCovered(s: State, chain: Chain, task: Id, model: Id, prewarm: bool, rest: seq<Row>, giveUp: bool)
    requires Covered(s, chain)
    requires forall i :: 0 <= i < |rest| && rest[i].state.Open? ==> Covers(chain, rest[i])
    ensures Covered(Scan(s, task, model, prewarm, rest, giveUp), chain)
    decreases |rest|
  {
    if rest != [] && !(rest[0].model == model && rest[0].state.Open? && rest[0].id !in s.mem.active) {
      ScanCovered(s, chain, task, model, prewarm, rest[1..], giveUp);
    }
  }

  /** What the verdict writes, or leaves behind, covers the chain. */
  lemma JudgeCovers(cfg: Config, s: State, chain: Chain, model: Id, row: Row, read: Reply<Truth>, now: int)
    requires Covered(s, chain) && row.state.Open? && Covers(chain, row) && OwnAnswer(cfg, chain, row, read)
    ensures match Judge(cfg, s, model, row, read, now)
            case Quit => true
            case Skip(None) => true
            case Skip(Some(write)) => Covers(chain, write)
            case Grant(granted) => Covers(chain, granted) && granted.id == row.id && row.id !in chain.mayOpen
  {
  }

  lemma MemoryCovered(s: State, chain: Chain, mem: Memory)
    requires Covered(s, chain)
    requires forall t :: t in mem.borrowers ==>
               || BorrowerCovers(chain, mem.borrowers[t])
               || (t in s.mem.borrowers && mem.borrowers[t] == s.mem.borrowers[t])
    ensures Covered(s.(mem := mem), chain)
  {
  }

  lemma VerifyCovered(cfg: Config, s: State, chain: Chain, task: Id, read: Reply<Truth>, now: int, giveUp: bool)
    requires Covered(s, chain) && task in s.mem.borrowers && s.mem.borrowers[task].Verifying?
    requires OwnAnswer(cfg, chain, s.mem.borrowers[task].row, read)
    ensures Covered(AcquireVerify(cfg, s, task, read, now, giveUp), chain)
  {
    hide Scan;
    hide Judge;
    hide OwnAnswer;
    assert BorrowerCovers(chain, s.mem.borrowers[task]);
    hide Covered;
    hide Covers;
    var Verifying(model, prewarm, row, rest) := s.mem.borrowers[task];
    JudgeCovers(cfg, s, chain, model, row, read, now);
    var dropped := s.(mem := s.mem.(active := s.mem.active - {row.id}));
    MemoryCovered(s, chain, dropped.mem);
    match Judge(cfg, s, model, row, read, now)
    case Quit => MemoryCovered(s, chain, Leave(dropped, task).mem);
    case Skip(None) => ScanCovered(dropped, chain, task, model, prewarm, rest, giveUp);
    case Skip(Some(write)) =>
      PutCovered(dropped, chain, write);
      ScanCovered(PutRow(dropped, write), chain, task, model, prewarm, rest, giveUp);
    case Grant(granted) =>
      PutCovered(s, chain, granted);
      MemoryCovered(PutRow(s, granted), chain, AcquireVerify(cfg, s, task, read, now, giveUp).mem);
  }

  lemma PassCovered(s: State, chain: Chain, task: Id, listing: seq<Row>, giveUp: bool)
    requires Covered(s, chain) && CanBorrow(s, PassAcquire(task, listing, giveUp))
    ensures Covered(AcquirePass(s, task, listing, giveUp), chain)
  {
    hide Scan;
    var Waiting(model, prewarm) := s.mem.borrowers[task];
    ScanCovered(s, chain, task, model, prewarm, listing, giveUp);
    MemoryCovered(s, chain, Leave(s, task).mem);
  }

  lemma ReleaseCovered(s: State, chain: Chain, task: Id, now: int)
    requires Covered(s, chain) && CanBorrow(s, ReleaseLease(task, now))
    ensures Covered(Release(s, task, now), chain)
  {
    var t := Release(s, task, now);
    var id := s.mem.borrowers[task].id;
    MemoryCovered(s, chain, t.mem);
    if id in s.rows {
      PutCovered(s.(mem := t.mem), chain, s.rows[id].(lastUsed := now));
    }
  }

  lemma InvalidateCovered(s: State, chain: Chain, task: Id)
    requires Covered(s, chain) && CanBorrow(s, InvalidateLease(task))
    ensures Covered(Invalidate(s, task), chain)
  {
    var id := s.mem.borrowers[task].id;
    assert BorrowerCovers(chain, s.mem.borrowers[task]);
    if id in s.rows && Live(s.rows[id]) {
      PutCovered(s, chain, s.rows[id].(state := Draining));
    }
  }

  lemma BorrowCovered(cfg: Config, w: World, step: BorrowStep)
    requires Covered(w.gw, w.chain) && CanBorrow(w.gw, step) && Honest(cfg, w, Borrows(step))
    ensures var t := ApplyBorrow(cfg, w.gw, step); Covered(t, Settle(w.chain, w.gw, t))
  {
    var s, chain := w.gw, w.chain;
    var t := ApplyBorrow(cfg, s, step);
    hide Covered;
    Leases.BorrowFrame(cfg, s, step);
    match step {
      case BeginAcquire(_, _, _) => MemoryCovered(s, chain, t.mem);
      case PassAcquire(task, listing, giveUp) => PassCovered(s, chain, task, listing, giveUp);
      case VerifyAcquire(task, read, now, giveUp) => VerifyCovered(cfg, s, chain, task, read, now, giveUp);
      case AbandonAcquire(_) => MemoryCovered(s, chain, t.mem);
      case ReleaseLease(task, now) => ReleaseCovered(s, chain, task, now);
      case InvalidateLease(task) => InvalidateCovered(s, chain, task);
    }
    PlainCovered(s, chain, t);
  }

  lemma UpkeepCovered(s: State, chain: Chain, step: UpkeepStep)
    requires Covered(s, chain)
    ensures var t := ApplyUpkeep(s, step); Covered(t, Settle(chain, s, t))
  {
    PlainCovered(s, chain, ApplyUpkeep(s, step));
  }

  lemma RestartCovered(s: State, chain: Chain, step: RestartStep)
    requires Covered(s, chain) && CanRestart(s, step)
    ensures var t := ApplyRestart(s, step); Covered(t, Settle(chain, s, t))
  {
    PlainCovered(s, chain, ApplyRestart(s, step));
  }

  lemma ActiveIsKnown(s: State, chain: Chain)
    requires Covered(s, chain) && Leases.Leasing(s)
    ensures ActiveKnown(s, chain)
  {
    forall id | id in s.mem.active ensures id !in chain.mayOpen {
      var task :| Leases.OwnedBy(s.mem.borrowers, id, task);
      assert BorrowerCovers(chain, s.mem.borrowers[task]);
    }
  }

  lemma GatewayCovered(cfg: Config, w: World, step: Step)
    requires Covered(w.gw, w.chain) && Leases.Leasing(w.gw) && HolderState(w.gw.lock)
    requires Enabled(w.gw, step) && Honest(cfg, w, step)
    ensures var w' := GatewayStep(cfg, w, step); Covered(w'.gw, w'.chain)
  {
    match step
    case Opens(o) => OpenCovered(cfg, w, o);
    case Closes(c) => ActiveIsKnown(w.gw, w.chain); CloseCovered(cfg, w, c);
    case Withdraws(x) => TreasuryCovered(w.gw, w.chain, x);
    case Reconciles(r) => ReconcileCovered(cfg, w, r);
    case Borrows(b) => BorrowCovered(cfg, w, b);
    case Tends(u) => UpkeepCovered(w.gw, w.chain, u);
    case Restarts(x) => RestartCovered(w.gw, w.chain, x);
  }

  lemma ChainCovered(w: World, step: ChainStep)
    requires Covered(w.gw, w.chain) && ChainCan(w, step)
    ensures Covered(ChainApply(w, step).gw, ChainApply(w, step).chain)
  {
    var chain' := ChainApply(w, step).chain;
    forall r: Row | Covers(w.chain, r) ensures Covers(chain', r) {}
    forall b | b in w.gw.mem.borrowers ensures BorrowerCovers(chain', w.gw.mem.borrowers[b]) {
      assert BorrowerCovers(w.chain, w.gw.mem.borrowers[b]);
    }
  }

  // ---------------------------------------------------------------- the budget is kept

  lemma {:induction false} TotalSub(m: map<Id, nat>, less: map<Id, nat>)
    requires forall k :: k in less ==> k in m && less[k] <= m[k]
    ensures Total(less) <= Total(m)
    decreases |less|
  {
    if less != map[] {
      var k :| k in less;
      TotalRemove(less, k);
      TotalRemove(m, k);
      TotalSub(m - {k}, less - {k});
    }
  }

  ghost predicate Within(w: World) {
    var lock, budget := w.gw.lock, w.gw.policy.maxTotalStake;
    && ExposureOf(w.chain) <= budget
    && (lock.OpenChecking? || lock.OpenQuoting? ==> lock.policy.maxTotalStake == budget)
    && (lock.OpenQuoting? ==>
          && w.chain.mayOpen == map[]
          && Total(LiveStakes(w.chain)) <= lock.reserved
          && (w.stakesRead.Some? ==> ExposureOf(w.chain) <= lock.reserved + w.stakesRead.value))
  }

  /** A step that neither starts nor ends a preflight, and keeps the budget setting. */
  lemma PlainWithin(w: World, t: State, stakesRead: Option<int>)
    requires Within(w) && t.policy.maxTotalStake == w.gw.policy.maxTotalStake
    requires t.lock == w.gw.lock || !t.lock.OpenQuoting?
    requires t.lock == w.gw.lock || (t.lock.OpenChecking? ==> t.lock.policy.maxTotalStake == t.policy.maxTotalStake)
    requires !(w.gw.lock.OpenQuoting? && t.lock.OpenSubmitted?)
    requires stakesRead == if w.gw.lock.OpenQuoting? && t.lock == w.gw.lock then w.stakesRead else None
    ensures Within(World(t, Settle(w.chain, w.gw, t), stakesRead))
  {
  }

  lemma NothingMayOpen(s: State, chain: Chain)
    requires Covered(s, chain) && ClearWallet(s, None)
    ensures chain.mayOpen == map[]
  {
    forall id | id in s.rows ensures id !in chain.mayOpen {
      assert Covers(chain, s.rows[id]);
    }
    assert chain.mayOpen.Keys == {};
  }

  /** The store check: nothing may still open, and the listed rows cover every live stake. */
  lemma CheckWithin(cfg: Config, w: World, checked: Reply<()>, listing: seq<Row>)
    requires Within(w) && Covered(w.gw, w.chain) && CanOpen(w.gw, CheckOpen(checked, listing))
    ensures Within(GatewayStep(cfg, w, Opens(CheckOpen(checked, listing))))
  {
    var t := OpenCheck(w.gw, checked, listing);
    if t.lock.OpenQuoting? {
      NothingMayOpen(w.gw, w.chain);
      assert Settle(w.chain, w.gw, t) == w.chain;
      var live := LiveStakes(w.chain);
      forall k | k in live ensures exists i :: 0 <= i < |listing| && listing[i].id == k && listing[i].stake >= live[k] {
        assert Covers(w.chain, w.gw.rows[k]);
      }
      RowsCover(live, listing);
    } else {
      PlainWithin(w, t, None);
    }
  }

  /** The submission adds its limit, and the limit is what the preflight left of the budget. */
  lemma SubmitWithin(cfg: Config, w: World, quoted: Reply<Quote>, newId: Id, now: int)
    requires Within(w) && CanOpen(w.gw, SubmitOpen(quoted, newId, now))
    requires HonestOpen(cfg, w, SubmitOpen(quoted, newId, now))
    ensures Within(GatewayStep(cfg, w, Opens(SubmitOpen(quoted, newId, now))))
  {
    var t := OpenSubmit(w.gw, quoted, newId, now);
    if t.lock.OpenSubmitted? {
      var chain' := Settle(w.chain, w.gw, t);
      assert chain'.mayOpen == map[newId := t.lock.row.stake];
      TotalAdd(map[], newId, t.lock.row.stake);
      assert map[][newId := t.lock.row.stake] == map[newId := t.lock.row.stake];
      assert LiveStakes(chain') == LiveStakes(w.chain);
    } else {
      PlainWithin(w, t, None);
    }
  }

  lemma OpenWithin(cfg: Config, w: World, step: OpenStep)
    requires Within(w) && Covered(w.gw, w.chain) && CanOpen(w.gw, step) && HonestOpen(cfg, w, step)
    ensures Within(GatewayStep(cfg, w, Opens(step)))
  {
    hide Total;
    hide Covered;
    hide LiveStakes;
    match step
    case CheckOpen(checked, listing) => CheckWithin(cfg, w, checked, listing);
    case SubmitOpen(quoted, newId, now) => SubmitWithin(cfg, w, quoted, newId, now);
    case BeginOpen(model) => PlainWithin(w, OpenBegin(w.gw, model), None);
    case ReplyOpen(answered, now) => PlainWithin(w, OpenReply(w.gw, answered, now), None);
    case ConfirmOpen(confirmed, now) => PlainWithin(w, OpenConfirm(cfg, w.gw, confirmed, now), None);
  }

  /** Other tasks never hold the opener's lock and leave the budget setting alone. */
  ghost predicate OpenerFrame(s: State, t: State) {
    && t.policy.maxTotalStake == s.policy.maxTotalStake
    && (t.lock == s.lock || (!t.lock.OpenChecking? && !t.lock.OpenQuoting? && !t.lock.OpenSubmitted?))
  }

  lemma CloseOpenerFrame(cfg: Config, s: State, step: CloseStep)
    requires CanClose(s, step)
    ensures OpenerFrame(s, ApplyClose(cfg, s, step))
  {
  }

  lemma TreasuryOpenerFrame(s: State, step: TreasuryStep)
    requires CanWithdraw(s, step)
    ensures OpenerFrame(s, ApplyTreasury(s, step))
  {
  }

  lemma BorrowOpenerFrame(cfg: Config, s: State, step: BorrowStep)
    requires CanBorrow(s, step)
    ensures OpenerFrame(s, ApplyBorrow(cfg, s, step))
  {
    match step
    case PassAcquire(task, listing, giveUp) =>
      var Waiting(model, prewarm) := s.mem.borrowers[task];
      WalletSafety.ScanFrame(s, task, model, prewarm, listing, giveUp);
    case VerifyAcquire(task, read, now, giveUp) => WalletSafety.VerifyFrame(cfg, s, task, read, now, giveUp);
    case _ =>
  }

  lemma OtherOpenerFrame(cfg: Config, w: World, step: Step)
    requires Enabled(w.gw, step) && Honest(cfg, w, step) && !step.Opens?
    ensures OpenerFrame(w.gw, Apply(cfg, w.gw, step))
  {
    match step
    case Closes(c) => CloseOpenerFrame(cfg, w.gw, c);
    case Withdraws(x) => TreasuryOpenerFrame(w.gw, x);
    case Reconciles(_) =>
    case Borrows(b) => BorrowOpenerFrame(cfg, w.gw, b);
    case Tends(_) =>
    case Restarts(_) =>
  }

  lemma GatewayWithin(cfg: Config, w: World, step: Step)
    requires Within(w) && Covered(w.gw, w.chain) && Enabled(w.gw, step) && Honest(cfg, w, step)
    ensures Within(GatewayStep(cfg, w, step))
  {
    if step.Opens? {
      OpenWithin(cfg, w, step.o);
    } else {
      var w' := GatewayStep(cfg, w, step);
      OtherOpenerFrame(cfg, w, step);
      PlainWithin(w, w'.gw, w'.stakesRead);
    }
  }

  lemma LandWithin(w: World, id: Id, chainId: Id, stake: nat)
    requires Within(w) && Covered(w.gw, w.chain) && ChainCan(w, OpenLands(id, chainId, stake))
    ensures Within(ChainApply(w, OpenLands(id, chainId, stake)))
  {
    var chain, chain' := w.chain, ChainApply(w, OpenLands(id, chainId, stake)).chain;
    TotalRemove(chain.mayOpen, id);
    TotalAdd(LiveStakes(chain), id, stake);
    assert LiveStakes(chain') == LiveStakes(chain)[id := stake];
  }

  /** Closing moves a stake, at most in full, to held and withdrawable amounts; landing uses up its reservation. */
  lemma ChainWithin(w: World, step: ChainStep)
    requires Within(w) && Covered(w.gw, w.chain) && ChainCan(w, step)
    ensures Within(ChainApply(w, step))
  {
    hide Covered;
    var chain, chain' := w.chain, ChainApply(w, step).chain;
    match step
    case ReadStakes =>
    case OpenLands(id, chainId, stake) => LandWithin(w, id, chainId, stake);
    case OpenDies(id) =>
      TotalRemove(chain.mayOpen, id);
      assert LiveStakes(chain') == LiveStakes(chain);
    case SessionCloses(id, held, released) =>
      TotalRemove(LiveStakes(chain), id);
      assert LiveStakes(chain') == LiveStakes(chain) - {id};
    case StakeMatures(_) => assert LiveStakes(chain') == LiveStakes(chain);
    case WithdrawalLands(_) => assert LiveStakes(chain') == LiveStakes(chain);
  }

  // ---------------------------------------------------------------- whole runs

  ghost predicate WorldInv(w: World) {
    Leases.Inv(w.gw) && Covered(w.gw, w.chain) && HolderState(w.gw.lock) && Within(w)
  }

  datatype WorldStep = Gateway(step: Step) | Environment(event: ChainStep)

  ghost predicate WorldCan(cfg: Config, w: World, step: WorldStep) {
    match step
    case Gateway(g) => Enabled(w.gw, g) && Honest(cfg, w, g)
    case Environment(e) => ChainCan(w, e)
  }

  ghost function WorldApply(cfg: Config, w: World, step: WorldStep): World
    requires WorldCan(cfg, w, step)
  {
    match step
    case Gateway(g) => GatewayStep(cfg, w, g)
    case Environment(e) => ChainApply(w, e)
  }

  ghost predicate WorldRun(cfg: Config, w: World, steps: seq<WorldStep>, w': World)
    decreases |steps|
  {
    if steps == [] then w == w'
    else WorldCan(cfg, w, steps[0]) && WorldRun(cfg, WorldApply(cfg, w, steps[0]), steps[1..], w')
  }

  lemma HolderStateKept(cfg: Config, s: State, step: Step)
    requires HolderState(s.lock) && Enabled(s, step)
    ensures HolderState(Apply(cfg, s, step).lock)
  {
    match step
    case Opens(o) => OpenHolderState(cfg, s, o);
    case Closes(c) => CloseHolderState(cfg, s, c);
    case Withdraws(x) => TreasuryHolderState(s, x);
    case Reconciles(r) =>
    case Borrows(b) => Leases.BorrowFrame(cfg, s, b);
    case Tends(u) =>
    case Restarts(x) =>
  }

  lemma OpenHolderState(cfg: Config, s: State, step: OpenStep)
    requires CanOpen(s, step)
    ensures HolderState(ApplyOpen(cfg, s, step).lock)
  {
  }

  lemma CloseHolderState(cfg: Config, s: State, step: CloseStep)
    requires HolderState(s.lock) && CanClose(s, step)
    ensures HolderState(ApplyClose(cfg, s, step).lock)
  {
  }

  lemma TreasuryHolderState(s: State, step: TreasuryStep)
    requires CanWithdraw(s, step)
    ensures HolderState(ApplyTreasury(s, step).lock)
  {
  }

  lemma WorldStepKeeps(cfg: Config, w: World, step: WorldStep)
    requires WorldInv(w) && WorldCan(cfg, w, step)
    ensures WorldInv(WorldApply(cfg, w, step))
  {
    match step
    case Gateway(g) =>
      Leases.StepKeepsInv(cfg, w.gw, g);
      HolderStateKept(cfg, w.gw, g);
      GatewayCovered(cfg, w, g);
      GatewayWithin(cfg, w, g);
    case Environment(e) =>
      ChainCovered(w, e);
      ChainWithin(w, e);
  }

  /** Over any run of gateway and chain steps the true exposure stays within the fixed budget. */
  lemma {:induction false} ExposureWithinBudget(cfg: Config, w: World, steps: seq<WorldStep>, w': World)
    requires WorldInv(w) && WorldRun(cfg, w, steps, w')
    ensures WorldInv(w') && ExposureOf(w'.chain) <= w'.gw.policy.maxTotalStake
    decreases |steps|
  {
    if steps != [] {
      WorldStepKeeps(cfg, w, steps[0]);
      ExposureWithinBudget(cfg, WorldApply(cfg, w, steps[0]), steps[1..], w');
    }
  }

  /** A fresh gateway with a wallet that is within the budget qualifies. */
  lemma FreshWorld(s: State, hold: nat, available: nat)
    requires Init(s) && hold + available <= s.policy.maxTotalStake
    ensures WorldInv(World(s, Chain(map[], map[], hold, available), None))
  {
    Leases.EmptyLeaseInv();
    assert LiveStakes(Chain(map[], map[], hold, available)) == map[];
  }

  // ---------------------------------------------------------------- the confirming read

  /**
   The classification of a failed confirming read decides: with the session on the chain, the row keeps
   covering it exactly when the failure counts as unknown.
   */
  lemma ConfirmingReadDecides(cfg: Config, w: World, failure: Failure, now: int)
    requires WorldInv(w) && w.gw.lock.OpenConfirming? && LiveOn(w.chain, w.gw.lock.row.id)
    ensures var w' := GatewayStep(cfg, w, Opens(ConfirmOpen(Err(failure), now)));
            Covered(w'.gw, w'.chain) <==> failure.outcome.UnknownOutcome?
  {
    hide Total;
    hide Within;
    var row := w.gw.lock.row;
    var w' := GatewayStep(cfg, w, Opens(ConfirmOpen(Err(failure), now)));
    if failure.outcome.UnknownOutcome? {
      OpenErrorCovered(w.gw, w.chain, w.gw.lock.model, w.gw.lock.attempt, row, failure, now);
    } else {
      assert w'.gw.rows[row.id].state.Failed?;
      assert !Covers(w'.chain, w'.gw.rows[row.id]);
    }
  }
}
