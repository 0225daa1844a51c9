/**
 How the budget is exceeded when one of the three precautions of the exposure theorem is missing.

 A session that is live on the chain, or may still get there, while its row counts as failed or closed is missing
 from the next preflight.  The row gets there by a lost confirming read that counts as `not_submitted`, by
 reverted receipts of a journal that is not completed, or by a bind to another operation's closed session.  All
 runs are runs of gateway, node and chain together.
 */
module ExposureOverrun {
  import opened Options
  import opened SessionRows
  import opened Protocol
  import opened NodeJournal
  import opened Exposure
  import opened JournalEvidence
  import opened Identity
  import opened GatewayAndNode
  import WalletSafety
  import Leases

  // ---------------------------------------------------------------- runs in sequence

  lemma {:induction false} JointConcat(cfg: Config, care: Care, j: Joint, first: seq<JointStep>, m: Joint,
                                       second: seq<JointStep>, j': Joint)
    requires JointRun(cfg, care, j, first, m) && JointRun(cfg, care, m, second, j')
    ensures JointRun(cfg, care, j, first + second, j')
    decreases |first|
  {
    hide Bury;
    hide JointCan;
    if first == [] {
      assert first + second == second;
    } else {
      assert (first + second)[1..] == first[1..] + second;
      JointConcat(cfg, care, JointApply(cfg, care, j, first[0]), first[1..], m, second, j');
    }
  }

  lemma JointOne(cfg: Config, care: Care, j: Joint, step: JointStep)
    requires JointCan(cfg, care, j, step)
    ensures JointRun(cfg, care, j, [step], JointApply(cfg, care, j, step))
  {
    hide Bury;
    hide JointCan;
    assert JointRun(cfg, care, JointApply(cfg, care, j, step), [step][1..], JointApply(cfg, care, j, step));
  }

  lemma JointSnoc(cfg: Config, care: Care, j: Joint, steps: seq<JointStep>, m: Joint, step: JointStep)
    requires JointRun(cfg, care, j, steps, m) && JointCan(cfg, care, m, step)
    ensures JointRun(cfg, care, j, steps + [step], JointApply(cfg, care, m, step))
  {
    hide Bury;
    hide JointCan;
    JointOne(cfg, care, m, step);
    JointConcat(cfg, care, j, steps, m, [step], JointApply(cfg, care, m, step));
  }

  /** What a careful gateway may do, a less careful one may do too. */
  lemma {:induction false} LessCareful(cfg: Config, care: Care, j: Joint, steps: seq<JointStep>, j': Joint)
    requires JointRun(cfg, CAREFUL, j, steps, j')
    ensures JointRun(cfg, care, j, steps, j')
    decreases |steps|
  {
    hide Bury;
    if steps != [] {
      LessCarefulStep(cfg, care, j, steps[0]);
      LessCareful(cfg, care, JointApply(cfg, CAREFUL, j, steps[0]), steps[1..], j');
    }
  }

  lemma LessCarefulStep(cfg: Config, care: Care, j: Joint, step: JointStep)
    requires JointCan(cfg, CAREFUL, j, step)
    ensures JointCan(cfg, care, j, step) && JointApply(cfg, care, j, step) == JointApply(cfg, CAREFUL, j, step)
  {
    hide Bury;
  }

  ghost predicate Undead(j: Joint) {
    forall id :: id in j.w.chain.mayOpen ==> !Dead(j.n, j.mined, id)
  }

  lemma BuryNothing(j: Joint)
    requires Undead(j)
    ensures Bury(j) == j
  {
    assert Bury(j).w.chain.mayOpen == j.w.chain.mayOpen;
  }

  // ---------------------------------------------------------------- one more open is admitted

  /** The chain ids in the store are on record. */
  ghost predicate Recorded(j: Joint) {
    Pairs(j.w.gw.rows) <= j.ids.carried
  }

  /** A gateway step that writes no new chain id leaves the record as it is. */
  lemma ActedPlainly(cfg: Config, j: Joint, g: Step)
    requires Enabled(j.w.gw, g) && Pairs(Apply(cfg, j.w.gw, g).rows) <= j.ids.carried
    requires !(g.Reconciles? && g.r.AdoptSession?)
    ensures Acted(cfg, j, g) == j.(w := GatewayStep(cfg, j.w, g))
  {
    assert Grown(j.ids.carried, Apply(cfg, j.w.gw, g)) == j.ids.carried;
  }

  lemma KnownPairs(carried: Carried, rows: map<Id, Row>)
    requires RowsKnown(carried, rows)
    ensures Pairs(rows) <= carried
  {
  }

  lemma WritePairs(carried: Carried, rows: map<Id, Row>, row: Row)
    requires Pairs(rows) <= carried && (row.chainId.Some? ==> Listed(carried, row))
    ensures Pairs(rows[row.id := row]) <= carried
  {
    var rows' := rows[row.id := row];
    forall id | id in rows' && rows'[id].chainId.Some? ensures (id, rows'[id].chainId.value) in carried {
      if id != row.id {
        PairOf(rows, id);
      }
    }
  }

  /** As far as the store shows, nothing is unresolved. */
  ghost predicate Settled(j: Joint) {
    j.w.gw.lock.Free? && ClearWallet(j.w.gw, None) && Undead(j) && Recorded(j)
  }

  /** Policy, pool and wallet let one more open through, under an unused id. */
  ghost predicate Admits(j: Joint, model: Id, listing: seq<Row>, quote: Quote, newId: Id) {
    var s := j.w.gw;
    && !s.policy.paused && !s.mem.maintenance && model in s.policy.models
    && IsListing(s.rows, listing) && |listing| < s.policy.maxSessions && CountModel(listing, model) < s.policy.models[model]
    && quote.hold == j.w.chain.hold && quote.available == j.w.chain.available
    && OpenAllowed(s, s.policy, SumStakes(listing), quote)
    && Fresh(s, newId) && Unused(j.w, newId) && newId !in j.n.files
    && !Named(j.ids.carried, newId) && newId !in j.ids.adopted
  }

  function LimitFor(s: State, listing: seq<Row>, quote: Quote): int {
    StakeLimit(s.policy, SumStakes(listing), quote)
  }

  /** The open was submitted with the limit that the preflight found. */
  ghost function Ordered(j: Joint, model: Id, listing: seq<Row>, quote: Quote, newId: Id): Joint
    requires LimitFor(j.w.gw, listing, quote) >= 0
  {
    var s, limit := j.w.gw, LimitFor(j.w.gw, listing, quote);
    var row := NewRow(newId, model, quote, limit, 0);
    var t := PutRow(s, row).(calls := s.calls + [CallOpen(newId, limit)], lock := OpenSubmitted(model, 0, row));
    j.(w := World(t, j.w.chain.(mayOpen := j.w.chain.mayOpen[newId := limit]), None))
  }

  ghost function Preflight(j: Joint, lock: Holder, stakesRead: Option<int>): Joint {
    j.(w := j.w.(gw := j.w.gw.(lock := lock), stakesRead := stakesRead))
  }

  lemma PreflightBegins(cfg: Config, care: Care, j: Joint, model: Id, listing: seq<Row>, quote: Quote, newId: Id)
    requires Settled(j) && Admits(j, model, listing, quote, newId)
    ensures var step := Act(Opens(BeginOpen(model)));
            JointCan(cfg, care, j, step)
            && JointApply(cfg, care, j, step) == Preflight(j, OpenChecking(model, 0, j.w.gw.policy), None)
  {
    ActedPlainly(cfg, j, Opens(BeginOpen(model)));
    BuryNothing(Preflight(j, OpenChecking(model, 0, j.w.gw.policy), None));
  }

  lemma PreflightChecks(cfg: Config, care: Care, j: Joint, model: Id, listing: seq<Row>, quote: Quote, newId: Id)
    requires Settled(j) && Admits(j, model, listing, quote, newId)
    ensures var j1 := Preflight(j, OpenChecking(model, 0, j.w.gw.policy), None);
            var step := Act(Opens(CheckOpen(Ok(()), listing)));
            JointCan(cfg, care, j1, step)
            && JointApply(cfg, care, j1, step)
            == Preflight(j, OpenQuoting(model, 0, j.w.gw.policy, SumStakes(listing)), None)
  {
    var j1 := Preflight(j, OpenChecking(model, 0, j.w.gw.policy), None);
    ActedPlainly(cfg, j1, Opens(CheckOpen(Ok(()), listing)));
    BuryNothing(Preflight(j, OpenQuoting(model, 0, j.w.gw.policy, SumStakes(listing)), None));
  }

  lemma PreflightReads(cfg: Config, care: Care, j: Joint, model: Id, listing: seq<Row>, quote: Quote)
    requires Undead(j) && quote.hold == j.w.chain.hold && quote.available == j.w.chain.available
    ensures var lock := OpenQuoting(model, 0, j.w.gw.policy, SumStakes(listing));
            JointCan(cfg, care, Preflight(j, lock, None), Drift(ReadStakes))
            && JointApply(cfg, care, Preflight(j, lock, None), Drift(ReadStakes))
            == Preflight(j, lock, Some(quote.hold + quote.available))
  {
    BuryNothing(Preflight(j, OpenQuoting(model, 0, j.w.gw.policy, SumStakes(listing)), Some(quote.hold + quote.available)));
  }

  lemma SubmittedWorld(cfg: Config, j: Joint, w: World, model: Id, listing: seq<Row>, quote: Quote, newId: Id)
    requires Settled(j) && Admits(j, model, listing, quote, newId)
    requires w == Preflight(j, OpenQuoting(model, 0, j.w.gw.policy, SumStakes(listing)), Some(quote.hold + quote.available)).w
    ensures var submit := SubmitOpen(Ok(quote), newId, 0);
            && CanOpen(w.gw, submit) && HonestOpen(cfg, w, submit)
            && GatewayStep(cfg, w, Opens(submit)) == Ordered(j, model, listing, quote, newId).w
  {
  }

  lemma PreflightSubmits(cfg: Config, care: Care, j: Joint, model: Id, listing: seq<Row>, quote: Quote, newId: Id)
    requires Settled(j) && Admits(j, model, listing, quote, newId)
    ensures var lock := OpenQuoting(model, 0, j.w.gw.policy, SumStakes(listing));
            var j3 := Preflight(j, lock, Some(quote.hold + quote.available));
            var step := Act(Opens(SubmitOpen(Ok(quote), newId, 0)));
            JointCan(cfg, care, j3, step) && JointApply(cfg, care, j3, step) == Ordered(j, model, listing, quote, newId)
  {
    var j3 := Preflight(j, OpenQuoting(model, 0, j.w.gw.policy, SumStakes(listing)), Some(quote.hold + quote.available));
    SubmittedWorld(cfg, j, j3.w, model, listing, quote, newId);
    var rows := Ordered(j, model, listing, quote, newId).w.gw.rows;
    assert Pairs(rows) <= j.ids.carried by {
      assert forall id :: id in rows && rows[id].chainId.Some? ==> id in j.w.gw.rows && rows[id] == j.w.gw.rows[id];
    }
    ActedPlainly(cfg, j3, Opens(SubmitOpen(Ok(quote), newId, 0)));
    BuryNothing(Ordered(j, model, listing, quote, newId));
    hide GatewayStep;
    hide HonestOpen;
    hide Total;
  }

  /** The preflight runs through, and the exposure grows by the limit. */
  lemma OneMoreOpen(cfg: Config, care: Care, j: Joint, model: Id, listing: seq<Row>, quote: Quote, newId: Id)
    returns (steps: seq<JointStep>)
    requires Settled(j) && Admits(j, model, listing, quote, newId)
    ensures JointRun(cfg, care, j, steps, Ordered(j, model, listing, quote, newId))
    ensures ExposureOf(Ordered(j, model, listing, quote, newId).w.chain)
         == ExposureOf(j.w.chain) + LimitFor(j.w.gw, listing, quote)
  {
    hide JointCan;
    hide Ordered;
    hide Admits;
    hide Bury;
    var begin, check := Act(Opens(BeginOpen(model))), Act(Opens(CheckOpen(Ok(()), listing)));
    var submit := Act(Opens(SubmitOpen(Ok(quote), newId, 0)));
    PreflightBegins(cfg, care, j, model, listing, quote, newId);
    PreflightChecks(cfg, care, j, model, listing, quote, newId);
    AdmitsRead(j, model, listing, quote, newId);
    PreflightReads(cfg, care, j, model, listing, quote);
    PreflightSubmits(cfg, care, j, model, listing, quote, newId);
    var lock := OpenQuoting(model, 0, j.w.gw.policy, SumStakes(listing));
    var j1, j2 := Preflight(j, OpenChecking(model, 0, j.w.gw.policy), None), Preflight(j, lock, None);
    JointOne(cfg, care, j, begin);
    JointSnoc(cfg, care, j, [begin], j1, check);
    JointSnoc(cfg, care, j, [begin] + [check], j2, Drift(ReadStakes));
    JointSnoc(cfg, care, j, [begin] + [check] + [Drift(ReadStakes)], Preflight(j, lock, Some(quote.hold + quote.available)), submit);
    steps := [begin] + [check] + [Drift(ReadStakes)] + [submit];
    OrderedExposure(j, model, listing, quote, newId);
  }

  lemma AdmitsRead(j: Joint, model: Id, listing: seq<Row>, quote: Quote, newId: Id)
    requires Admits(j, model, listing, quote, newId)
    ensures quote.hold == j.w.chain.hold && quote.available == j.w.chain.available
    ensures LimitFor(j.w.gw, listing, quote) > 0 && newId !in j.w.chain.mayOpen
  {
  }

  lemma OrderedExposure(j: Joint, model: Id, listing: seq<Row>, quote: Quote, newId: Id)
    requires newId !in j.w.chain.mayOpen && LimitFor(j.w.gw, listing, quote) >= 0
    ensures ExposureOf(Ordered(j, model, listing, quote, newId).w.chain)
         == ExposureOf(j.w.chain) + LimitFor(j.w.gw, listing, quote)
  {
    var limit := LimitFor(j.w.gw, listing, quote);
    var chain' := Ordered(j, model, listing, quote, newId).w.chain;
    TotalAdd(j.w.chain.mayOpen, newId, limit);
    assert LiveStakes(chain') == LiveStakes(j.w.chain);
  }

  // ---------------------------------------------------------------- a lost confirming read

  /** A failed confirming read that counts as `not_submitted` and is not retried with another provider. */
  predicate LostRead(j: Joint, failure: Failure) {
    && j.w.gw.lock.OpenConfirming? && failure.outcome.NotSubmitted?
    && !(failure.code.ProviderDeclined? && j.w.gw.lock.attempt < 2)
  }

  ghost function Unconfirmed(j: Joint, failure: Failure): Joint
    requires LostRead(j, failure)
  {
    var row := j.w.gw.lock.row;
    j.(w := World(OpenError(j.w.gw, j.w.gw.lock.model, j.w.gw.lock.attempt, row, failure, 0), j.w.chain, None))
  }

  const READS_UNTRUSTED := Care(false, true, true)

  lemma LosingRead(cfg: Config, j: Joint, failure: Failure)
    requires JointInv(j) && LostRead(j, failure)
    ensures var step := Act(Opens(ConfirmOpen(Err(failure), 0)));
            JointCan(cfg, READS_UNTRUSTED, j, step) && JointApply(cfg, READS_UNTRUSTED, j, step) == Unconfirmed(j, failure)
  {
    hide Total;
    hide Within;
    hide Leases.Inv;
    hide NodeInv;
    hide SessionsKnown;
    var row := j.w.gw.lock.row;
    KnownPairs(j.ids.carried, j.w.gw.rows);
    var t := Unconfirmed(j, failure).w.gw;
    WritePairs(j.ids.carried, j.w.gw.rows, t.rows[row.id]);
    ActedPlainly(cfg, j, Opens(ConfirmOpen(Err(failure), 0)));
    BuryNothing(Unconfirmed(j, failure));
  }

  /** Next to one unresolved row, nothing is unresolved and nothing may open. */
  lemma OthersResolved(w: World, id: Id)
    requires WorldInv(w)
    requires WalletSafety.Carried(w.gw.lock) == Some(WalletSafety.RowItem(id)) || (id in w.gw.rows && RowUnresolved(w.gw.rows[id]))
    ensures forall x :: x in w.gw.rows && x != id ==> !RowUnresolved(w.gw.rows[x])
    ensures forall x :: x in w.gw.ops ==> !OpUnresolved(w.gw.ops[x])
    ensures forall x :: x in w.chain.mayOpen ==> x == id
  {
    hide Total;
    hide Within;
    var s := w.gw;
    assert id in s.rows && RowUnresolved(s.rows[id]) ==> WalletSafety.Unresolved(s.rows, s.ops, WalletSafety.RowItem(id));
    forall x | x in s.rows && x != id ensures !RowUnresolved(s.rows[x]) && x !in w.chain.mayOpen {
      assert WalletSafety.Unresolved(s.rows, s.ops, WalletSafety.RowItem(x)) <==> RowUnresolved(s.rows[x]);
      assert Covers(w.chain, s.rows[x]);
    }
    forall x | x in s.ops ensures !OpUnresolved(s.ops[x]) {
      assert WalletSafety.Unresolved(s.rows, s.ops, WalletSafety.WithdrawalItem(x)) <==> OpUnresolved(s.ops[x]);
    }
  }

  lemma LostIsSettled(j: Joint, failure: Failure)
    requires JointInv(j) && LostRead(j, failure) && LiveOn(j.w.chain, j.w.gw.lock.row.id)
    ensures Settled(Unconfirmed(j, failure)) && j.w.chain.mayOpen == map[]
  {
    hide Linked;
    hide Total;
    hide Within;
    OthersResolved(j.w, j.w.gw.lock.row.id);
    hide Leases.Inv;
    assert j.w.chain.mayOpen.Keys == {};
    KnownPairs(j.ids.carried, j.w.gw.rows);
    hide Known;
    hide SessionsKnown;
    WritePairs(j.ids.carried, j.w.gw.rows, Unconfirmed(j, failure).w.gw.rows[j.w.gw.lock.row.id]);
  }

  /**
   From any sound state in which a live session is about to be confirmed: if the read is lost and one more open
   is admitted, the exposure grows by that open's whole limit.  So it passes the budget exactly if the limit
   is above what the budget really leaves; and if only the budget bounds the limit, exactly if the live stakes
   are more than the listed ones.
   */
  lemma LostReadOverruns(cfg: Config, j: Joint, failure: Failure, model: Id, listing: seq<Row>, quote: Quote, newId: Id)
    returns (steps: seq<JointStep>, j': Joint)
    requires JointInv(j) && LostRead(j, failure) && LiveOn(j.w.chain, j.w.gw.lock.row.id)
    requires Admits(Unconfirmed(j, failure), model, listing, quote, newId)
    ensures JointRun(cfg, READS_UNTRUSTED, j, steps, j')
    ensures var budget, limit := j.w.gw.policy.maxTotalStake, LimitFor(j.w.gw, listing, quote);
            && ExposureOf(j'.w.chain) == ExposureOf(j.w.chain) + limit && j'.w.gw.policy == j.w.gw.policy
            && (limit == budget - SumStakes(listing) - quote.hold - quote.available ==>
                  (ExposureOf(j'.w.chain) > budget <==> Total(LiveStakes(j.w.chain)) > SumStakes(listing)))
  {
    LosingRead(cfg, j, failure);
    LostIsSettled(j, failure);
    hide JointInv;
    hide Admits;
    hide Settled;
    hide Bury;
    hide JointCan;
    var lost := Unconfirmed(j, failure);
    var step := Act(Opens(ConfirmOpen(Err(failure), 0)));
    var rest := OneMoreOpen(cfg, READS_UNTRUSTED, lost, model, listing, quote, newId);
    AdmitsRead(lost, model, listing, quote, newId);
    j' := Ordered(lost, model, listing, quote, newId);
    JointOne(cfg, READS_UNTRUSTED, j, step);
    JointConcat(cfg, READS_UNTRUSTED, j, [step], lost, rest, j');
    steps := [step] + rest;
  }

  // ---------------------------------------------------------------- reverted receipts of a running operation

  /** Requests in progress stay in progress. */
  lemma WorkingKeeps(n: Node, call: NodeStep)
    requires CanStep(n, call) && Filed(n) && Working(call)
    ensures var n' := NodeApply(n, call); n'.files.Keys == n.files.Keys && n'.jobs.Keys == n.jobs.Keys
  {
  }

  /** Node calls beside an idle gateway. */
  lemma {:induction false} ServeAll(cfg: Config, care: Care, j: Joint, calls: seq<NodeStep>, n': Node)
    returns (steps: seq<JointStep>, j': Joint)
    requires NodeRun(j.n, calls, n') && forall i :: 0 <= i < |calls| ==> Working(calls[i]) && !calls[i].Name?
    requires forall id :: id in j.w.chain.mayOpen ==> id in j.n.jobs
    ensures JointRun(cfg, care, j, steps, j')
    ensures j'.w == j.w && j'.n == n' && j'.mined == j.mined && j'.ids == j.ids && n'.files.Keys == j.n.files.Keys && n'.jobs.Keys == j.n.jobs.Keys
    ensures j.seen <= j'.seen && (calls != [] ==> Contents(n'.files) <= j'.seen)
    decreases |calls|
  {
    if calls == [] {
      steps, j' := [], j;
    } else {
      ServeOne(cfg, care, j, calls[0]);
      assert |calls| == 1 ==> calls[1..] == [] && n' == NodeApply(j.n, calls[0]);
      var rest;
      rest, j' := ServeAll(cfg, care, Served(j, calls[0]), calls[1..], n');
      JointOne(cfg, care, j, Serve(calls[0]));
      JointConcat(cfg, care, j, [Serve(calls[0])], Served(j, calls[0]), rest, j');
      steps := [Serve(calls[0])] + rest;
    }
  }

  lemma ServeOne(cfg: Config, care: Care, j: Joint, call: NodeStep)
    requires CanStep(j.n, call) && Filed(j.n) && Working(call) && !call.Name?
    requires forall id :: id in j.w.chain.mayOpen ==> id in j.n.jobs
    ensures JointCan(cfg, care, j, Serve(call)) && JointApply(cfg, care, j, Serve(call)) == Served(j, call)
    ensures var n' := NodeApply(j.n, call); n'.files.Keys == j.n.files.Keys && n'.jobs.Keys == j.n.jobs.Keys
  {
    WorkingKeeps(j.n, call);
    BuryNothing(Served(j, call));
  }

  const RECEIPTS_TRUSTED := Care(true, false, true)

  /** An uncertain opening of which at least one open is listed and all listed ones reverted. */
  ghost predicate ListedReverted(mined: map<Tx, bool>, row: Row) {
    && row.state.OpenUnknown? && row.chainId.None? && OpenTxs(row.transactions) != []
    && forall i :: 0 <= i < |OpenTxs(row.transactions)| ==>
         var tx := OpenTxs(row.transactions)[i]; tx.wellFormed && tx in mined && !mined[tx]
  }

  /** Such an opening while the node is still serving it. */
  ghost predicate StillRunning(j: Joint, id: Id) {
    && j.w.gw.lock.Free? && id in j.w.gw.rows && ListedReverted(j.mined, j.w.gw.rows[id])
    && id in j.n.jobs && j.n.jobs[id].main.OpenTx? && id in j.w.chain.mayOpen
  }

  ghost function GivenUp(j: Joint, id: Id): Joint
    requires id in j.w.gw.rows
  {
    j.(w := World(PutRow(j.w.gw, j.w.gw.rows[id].(state := Failed)), j.w.chain, None))
  }

  function Reverts(n: nat): seq<Receipt> {
    seq(n, _ => Some(false))
  }

  lemma PassThreeFails(s: State, mined: map<Tx, bool>, id: Id)
    requires id in s.rows && ListedReverted(mined, s.rows[id])
    ensures var receipts := Reverts(|OpenTxs(s.rows[id].transactions)|);
            ReconcileReceipts(s, id, Ok(receipts), 0) == PutRow(s, s.rows[id].(state := Failed))
  {
    var txs := OpenTxs(s.rows[id].transactions);
    var receipts := Reverts(|txs|);
    assert receipts[0] == Some(false);
    assert forall i :: 0 <= i < |txs| ==> txs[i].wellFormed;
    assert TransactionState(txs, receipts).TxFailed?;
  }

  /** Pass 3 reads the receipts of row `id`, and every listed open reverted. */
  function AllReverted(j: Joint, id: Id): Step
    requires id in j.w.gw.rows
  {
    Reconciles(FromReceipts(id, Ok(Reverts(|OpenTxs(j.w.gw.rows[id].transactions)|)), 0))
  }

  lemma GivingUpActs(cfg: Config, j: Joint, id: Id)
    requires JointInv(j) && StillRunning(j, id)
    ensures Acted(cfg, j, AllReverted(j, id)) == GivenUp(j, id)
  {
    hide WorldInv;
    hide Linked;
    PassThreeFails(j.w.gw, j.mined, id);
    hide TransactionState;
    KnownPairs(j.ids.carried, j.w.gw.rows);
    WritePairs(j.ids.carried, j.w.gw.rows, j.w.gw.rows[id].(state := Failed));
    ActedPlainly(cfg, j, AllReverted(j, id));
  }

  lemma GivingUp(cfg: Config, j: Joint, id: Id)
    requires JointInv(j) && StillRunning(j, id)
    ensures var step := Act(AllReverted(j, id));
            JointCan(cfg, RECEIPTS_TRUSTED, j, step) && JointApply(cfg, RECEIPTS_TRUSTED, j, step) == GivenUp(j, id)
  {
    hide WorldInv;
    hide NodeInv;
    GivingUpActs(cfg, j, id);
    hide Identified;
    hide Acted;
    BuryNothing(GivenUp(j, id));
  }

  /** Nothing but the uncertain opening is unresolved or may still open. */
  lemma OnlyOneMayOpen(j: Joint, id: Id)
    requires JointInv(j) && StillRunning(j, id)
    ensures ClearWallet(GivenUp(j, id).w.gw, None) && j.w.chain.mayOpen - {id} == map[] && Recorded(GivenUp(j, id))
    ensures (forall x :: x in j.w.chain.mayOpen ==> x == id) && id !in j.w.chain.sessions
  {
    hide Linked;
    OthersResolved(j.w, id);
    assert (j.w.chain.mayOpen - {id}).Keys == {};
    KnownPairs(j.ids.carried, j.w.gw.rows);
    WritePairs(j.ids.carried, j.w.gw.rows, j.w.gw.rows[id].(state := Failed));
  }

  lemma {:induction false} UnminedOpen(mined: set<Tx>) returns (h: nat)
    ensures forall tx :: tx in mined ==> tx.hash < h
  {
    if mined == {} {
      h := 0;
    } else {
      var tx :| tx in mined;
      var rest := UnminedOpen(mined - {tx});
      h := if tx.hash < rest then rest else tx.hash + 1;
      assert forall x :: x in mined ==> x == tx || x in mined - {tx};
    }
  }

  /** The open landed with its whole limit. */
  ghost function Landed(j: Joint, id: Id, tx: Tx, chainId: Id): Joint
    requires id in j.w.chain.mayOpen && Unopened(j.w.chain, chainId)
  {
    j.(w := ChainApply(j.w, OpenLands(id, chainId, j.w.chain.mayOpen[id])), mined := j.mined[tx := true])
  }

  /** A success does not make anything dead. */
  lemma LandedUndead(j: Joint, id: Id, tx: Tx, chainId: Id)
    requires Undead(j) && id in j.w.chain.mayOpen && tx !in j.mined && Unopened(j.w.chain, chainId)
    ensures Undead(Landed(j, id, tx, chainId))
  {
    forall x | x in j.w.chain.mayOpen ensures !Dead(j.n, j.mined[tx := true], x) {
      if Over(j.n, x) {
        var t :| (x, t) in j.n.sent && t.kind.OpenTx? && !(t in j.mined && !j.mined[t]);
        assert !(t in j.mined[tx := true] && !j.mined[tx := true][t]);
      }
    }
  }

  lemma Landing(cfg: Config, care: Care, j: Joint, id: Id, tx: Tx, chainId: Id)
    requires Undead(j) && id in j.w.chain.mayOpen && Unopened(j.w.chain, chainId)
    requires (id, tx) in j.n.sent && tx.kind.OpenTx? && tx !in j.mined
    requires id !in j.w.chain.sessions
    ensures var step := Land(id, tx, chainId, j.w.chain.mayOpen[id]);
            JointCan(cfg, care, j, step) && JointApply(cfg, care, j, step) == Landed(j, id, tx, chainId)
    ensures ExposureOf(Landed(j, id, tx, chainId).w.chain) == ExposureOf(j.w.chain)
  {
    var m := j.w.chain.mayOpen[id];
    LandedUndead(j, id, tx, chainId);
    BuryNothing(Landed(j, id, tx, chainId));
    TotalRemove(j.w.chain.mayOpen, id);
    TotalAdd(LiveStakes(j.w.chain), id, m);
    assert LiveStakes(Landed(j, id, tx, chainId).w.chain) == LiveStakes(j.w.chain)[id := m];
  }

  lemma {:induction false} NewChainId(sessions: map<Id, OnChain>) returns (c: Id)
    ensures forall x :: x in sessions ==> sessions[x].chainId < c
    decreases |sessions|
  {
    if sessions == map[] {
      c := 0;
    } else {
      var x :| x in sessions;
      var rest := NewChainId(sessions - {x});
      c := if sessions[x].chainId < rest then rest else sessions[x].chainId + 1;
      assert forall y :: y in sessions ==> y == x || y in sessions - {x};
    }
  }

  lemma StillAdmits(j: Joint, id: Id, later: Joint, tx: Tx, chainId: Id, model: Id, listing: seq<Row>, quote: Quote, newId: Id)
    requires id in j.w.gw.rows && id in j.w.chain.mayOpen && Admits(GivenUp(j, id), model, listing, quote, newId)
    requires later.w == GivenUp(j, id).w && later.ids == j.ids && later.n.files.Keys == j.n.files.Keys
    requires Unopened(j.w.chain, chainId)
    ensures Admits(Landed(later, id, tx, chainId), model, listing, quote, newId)
  {
    assert newId != id;
  }

  /** Pass 3 gives the row up, and the node broadcasts another open. */
  lemma RetryIsSent(cfg: Config, j: Joint, id: Id) returns (steps: seq<JointStep>, j': Joint, tx: Tx)
    requires JointInv(j) && StillRunning(j, id)
    ensures JointRun(cfg, RECEIPTS_TRUSTED, j, steps, j') && (id, tx) in j'.n.sent && tx.kind.OpenTx? && tx !in j'.mined
    ensures j'.w == GivenUp(j, id).w && j'.n.files.Keys == j.n.files.Keys && j'.ids == j.ids && Undead(j')
  {
    hide JointCan;
    hide Bury;
    hide NodeInv;
    var giveUp := Act(AllReverted(j, id));
    GivingUp(cfg, j, id);
    OnlyOneMayOpen(j, id);
    hide WorldInv;
    hide Identified;
    hide Recorded;
    JointOne(cfg, RECEIPTS_TRUSTED, j, giveUp);
    var h := UnminedOpen(j.mined.Keys);
    tx := Tx(OpenTx, h, true);
    var calls, n' := ServedMaySend(j.n, id, tx);
    var serve;
    serve, j' := ServeAll(cfg, RECEIPTS_TRUSTED, GivenUp(j, id), calls, n');
    JointConcat(cfg, RECEIPTS_TRUSTED, j, [giveUp], GivenUp(j, id), serve, j');
    steps := [giveUp] + serve;
  }

  /** That open lands after all. */
  lemma RetryLands(cfg: Config, j: Joint, id: Id) returns (steps: seq<JointStep>, j': Joint, tx: Tx, chainId: Id)
    requires JointInv(j) && StillRunning(j, id)
    ensures j'.w == GivenUp(j, id).w && j'.n.files.Keys == j.n.files.Keys && j'.ids == j.ids && Unopened(j.w.chain, chainId)
    ensures JointRun(cfg, RECEIPTS_TRUSTED, j, steps, Landed(j', id, tx, chainId))
    ensures Settled(Landed(j', id, tx, chainId))
    ensures ExposureOf(Landed(j', id, tx, chainId).w.chain) == ExposureOf(j.w.chain)
  {
    hide JointCan;
    hide Bury;
    OnlyOneMayOpen(j, id);
    var sent;
    sent, j', tx := RetryIsSent(cfg, j, id);
    hide JointInv;
    chainId := NewChainId(j.w.chain.sessions);
    Landing(cfg, RECEIPTS_TRUSTED, j', id, tx, chainId);
    var land := Land(id, tx, chainId, j'.w.chain.mayOpen[id]);
    JointSnoc(cfg, RECEIPTS_TRUSTED, j, sent, j', land);
    steps := sent + [land];
  }

  /**
   From any sound state in which the listed opens of a running operation reverted: if pass 3 gives the row up,
   the node may still open the session, and one more admitted open brings the exposure up by its whole limit.
   */
  lemma RunningJournalOverruns(cfg: Config, j: Joint, id: Id, model: Id, listing: seq<Row>, quote: Quote, newId: Id)
    returns (steps: seq<JointStep>, j': Joint)
    requires JointInv(j) && StillRunning(j, id) && Admits(GivenUp(j, id), model, listing, quote, newId)
    ensures JointRun(cfg, RECEIPTS_TRUSTED, j, steps, j') && j'.w.gw.policy == j.w.gw.policy
    ensures ExposureOf(j'.w.chain) == ExposureOf(j.w.chain) + LimitFor(j.w.gw, listing, quote)
  {
    hide JointCan;
    hide Admits;
    hide Bury;
    hide Settled;
    hide JointInv;
    var first, j2, tx, chainId := RetryLands(cfg, j, id);
    var j3 := Landed(j2, id, tx, chainId);
    StillAdmits(j, id, j2, tx, chainId, model, listing, quote, newId);
    var rest := OneMoreOpen(cfg, RECEIPTS_TRUSTED, j3, model, listing, quote, newId);
    AdmitsRead(j3, model, listing, quote, newId);
    j' := Ordered(j3, model, listing, quote, newId);
    JointConcat(cfg, RECEIPTS_TRUSTED, j, first, j3, rest, j');
    steps := first + rest;
  }

  // ---------------------------------------------------------------- a bind to somebody else's session

  const BINDS_TAKEN := Care(true, true, false)

  /** An uncertain opening that may still land, and an accepted bind of it to a session that has closed. */
  ghost predicate WrongBind(cfg: Config, j: Joint, id: Id, chainId: Id, truth: Truth) {
    && j.w.gw.lock.Free? && BindAllowed(cfg, j.w.gw, id, chainId, truth) && SaysTruth(cfg, j.w.chain, truth)
    && truth.closedAt != 0 && id in j.w.chain.mayOpen
  }

  ghost function Bound(cfg: Config, j: Joint, id: Id, chainId: Id, truth: Truth): Joint {
    var t := Bind(cfg, j.w.gw, id, chainId, truth);
    j.(w := World(t, j.w.chain, None), ids := j.ids.(carried := Grown(j.ids.carried, t)))
  }

  lemma Binding(cfg: Config, j: Joint, id: Id, chainId: Id, truth: Truth)
    requires Linked(j) && WrongBind(cfg, j, id, chainId, truth)
    ensures var step := Act(Reconciles(BindSession(id, chainId, truth)));
            && JointCan(cfg, BINDS_TAKEN, j, step)
            && JointApply(cfg, BINDS_TAKEN, j, step) == Bound(cfg, j, id, chainId, truth)
  {
    hide NodeInv;
    BuryNothing(Bound(cfg, j, id, chainId, truth));
  }

  /** The chain id was another operation's, and nothing shows as unresolved. */
  lemma BoundIsSettled(cfg: Config, j: Joint, id: Id, chainId: Id, truth: Truth)
    requires JointInv(j) && WrongBind(cfg, j, id, chainId, truth)
    ensures Settled(Bound(cfg, j, id, chainId, truth)) && !NotTaken(j.ids, id, chainId)
  {
    BindIsOwnIff(cfg, j, id, chainId, truth);
    OthersResolved(j.w, id);
    hide Identified;
    hide Total;
    hide Within;
    hide Leases.Inv;
    hide NodeInv;
  }

  /**
   From any sound state with such a bind: the row is closed, its reservation still counts, and one more admitted
   open brings the exposure up by its whole limit.
   */
  lemma WrongBindOverruns(cfg: Config, j: Joint, id: Id, chainId: Id, truth: Truth,
                          model: Id, listing: seq<Row>, quote: Quote, newId: Id)
    returns (steps: seq<JointStep>, j': Joint)
    requires JointInv(j) && WrongBind(cfg, j, id, chainId, truth)
    requires Admits(Bound(cfg, j, id, chainId, truth), model, listing, quote, newId)
    ensures JointRun(cfg, BINDS_TAKEN, j, steps, j') && j'.w.gw.policy == j.w.gw.policy
    ensures id in j'.w.chain.mayOpen && id in j'.w.gw.rows && j'.w.gw.rows[id].state.Closed?
    ensures ExposureOf(j'.w.chain) == ExposureOf(j.w.chain) + LimitFor(j.w.gw, listing, quote)
  {
    hide JointCan;
    hide Bury;
    hide Settled;
    Binding(cfg, j, id, chainId, truth);
    BoundIsSettled(cfg, j, id, chainId, truth);
    hide JointInv;
    var j1 := Bound(cfg, j, id, chainId, truth);
    var step := Act(Reconciles(BindSession(id, chainId, truth)));
    JointOne(cfg, BINDS_TAKEN, j, step);
    var rest := OneMoreOpen(cfg, BINDS_TAKEN, j1, model, listing, quote, newId);
    AdmitsRead(j1, model, listing, quote, newId);
    j' := Ordered(j1, model, listing, quote, newId);
    JointConcat(cfg, BINDS_TAKEN, j, [step], j1, rest, j');
    steps := [step] + rest;
  }

  // ---------------------------------------------------------------- a late open

  lemma Beginning(cfg: Config, care: Care, j: Joint, id: Id)
    requires Undead(j) && Filed(j.n) && id !in j.n.files
    ensures var call := Begin(id, OpenTx, true, true, Stored);
            && JointCan(cfg, care, j, Serve(call)) && JointApply(cfg, care, j, Serve(call)) == Served(j, call)
            && id in Served(j, call).n.jobs && Served(j, call).n.jobs[id].main.OpenTx?
  {
    BuryNothing(Served(j, Begin(id, OpenTx, true, true, Stored)));
  }

  /** The node takes up the only pending open now. */
  lemma LateSending(cfg: Config, care: Care, j: Joint, id: Id) returns (steps: seq<JointStep>, j': Joint, tx: Tx)
    requires Linked(j) && j.w.chain.mayOpen.Keys == {id} && id !in j.n.files
    ensures j'.w == j.w && j'.ids == j.ids && j'.n.files.Keys == j.n.files.Keys + {id}
    ensures JointRun(cfg, care, j, steps, j') && Undead(j') && (id, tx) in j'.n.sent && tx.kind.OpenTx? && tx !in j'.mined
  {
    hide JointCan;
    hide Bury;
    hide OneSound;
    var call := Begin(id, OpenTx, true, true, Stored);
    Beginning(cfg, care, j, id);
    NodeStepKeeps(j.n, call);
    hide Linked;
    hide NodeInv;
    var j1 := Served(j, call);
    JointOne(cfg, care, j, Serve(call));
    var h := UnminedOpen(j.mined.Keys);
    tx := Tx(OpenTx, h, true);
    var calls, n' := ServedMaySend(j1.n, id, tx);
    var serve;
    serve, j' := ServeAll(cfg, care, j1, calls, n');
    JointConcat(cfg, care, j, [Serve(call)], j1, serve, j');
    steps := [Serve(call)] + serve;
  }

  /** And it lands. */
  lemma LateLanding(cfg: Config, care: Care, j: Joint, id: Id)
    returns (steps: seq<JointStep>, j': Joint, tx: Tx, chainId: Id)
    requires Linked(j) && j.w.chain.mayOpen.Keys == {id} && id !in j.w.chain.sessions && id !in j.n.files
    ensures j'.w == j.w && j'.ids == j.ids && j'.n.files.Keys == j.n.files.Keys + {id} && Unopened(j.w.chain, chainId)
    ensures tx !in j'.mined
    ensures JointRun(cfg, care, j, steps, Landed(j', id, tx, chainId)) && Undead(Landed(j', id, tx, chainId))
    ensures ExposureOf(Landed(j', id, tx, chainId).w.chain) == ExposureOf(j.w.chain)
  {
    hide JointCan;
    hide Bury;
    hide Undead;
    var sent;
    sent, j', tx := LateSending(cfg, care, j, id);
    hide Linked;
    chainId := NewChainId(j.w.chain.sessions);
    Landing(cfg, care, j', id, tx, chainId);
    LandedUndead(j', id, tx, chainId);
    var land := Land(id, tx, chainId, j'.w.chain.mayOpen[id]);
    JointSnoc(cfg, care, j, sent, j', land);
    steps := sent + [land];
  }
}
