/**
 Gateway, node and chain as one machine.

 What the exposure theorem assumes about the node's answers is derived here from what the node does: an open
 reaches the chain only as a transaction that the node broadcast and that did not revert, the helper serves
 what is in the journal files, receipts tell what was mined, a `not_submitted` answer is given by a request
 that ends without an announced submission, the node names a session only after the open landed, and a chain
 answer is about the session with the chain id that was asked for.  That such an answer is about the row's own
 session is not assumed: it follows from where rows get their chain ids (module Identity).

 Three decisions of the gateway are parameters: how it classifies a failed confirming read, whether reverted
 receipts count before the journal is completed, and whether an uncertain opening may be bound to a session
 that a row of another operation carried before.
 */
module GatewayAndNode {
  import opened Options
  import opened SessionRows
  import opened Protocol
  import opened NodeJournal
  import opened Exposure
  import opened JournalEvidence
  import opened Identity
  import WalletSafety
  import Leases

  /**
   `mined` tells which transactions succeeded or reverted.  History: `seen` holds every record that was ever in
   a journal file, `refused` the operations that were answered as not submitted, `ids` what is known about
   chain ids.
   */
  datatype Joint = Joint(w: World, n: Node, mined: map<Tx, bool>, seen: set<(Id, Progress)>, refused: set<Id>, ids: Ids)

  /** Chain ids that the node named, that rows ever carried, and the row ids made for adopted sessions. */
  datatype Ids = Ids(named: Carried, carried: Carried, adopted: set<Id>)

  /**
   The gateway counts failed confirming reads as unknown; pass 3 waits for a completed journal; an opening is
   bound only to a session that no row of another operation, closed and pruned ones included, ever carried.
   */
  datatype Care = Care(unknownReads: bool, completedOnly: bool, freshBinds: bool)

  const CAREFUL := Care(true, true, true)

  /** The request is over and every open it ever broadcast reverted. */
  ghost predicate Dead(n: Node, mined: map<Tx, bool>, id: Id) {
    Over(n, id) && forall tx :: (id, tx) in n.sent && tx.kind.OpenTx? ==> tx in mined && !mined[tx]
  }

  /** Dead operations stop counting as possible opens. */
  ghost function Bury(j: Joint): Joint {
    var mayOpen := j.w.chain.mayOpen;
    j.(w := j.w.(chain := j.w.chain.(
         mayOpen := map id | id in mayOpen && !Dead(j.n, j.mined, id) :: mayOpen[id])))
  }

  datatype JointStep =
    | Act(step: Step)
    | Serve(call: NodeStep)
    | Land(id: Id, tx: Tx, chainId: Id, stake: nat)
    | Revert(tx: Tx)
    | Drift(event: ChainStep)

  // ---------------------------------------------------------------- where answers come from

  /** The operation opened the session with this chain id. */
  predicate Names(chain: Chain, id: Id, chainId: Id) {
    id in chain.sessions && chain.sessions[id].chainId == chainId
  }

  /** A chain answer about a session of the wallet describes the session with that chain id. */
  ghost predicate SaysTruth(cfg: Config, chain: Chain, truth: Truth) {
    truth.user == cfg.wallet ==>
      exists o :: Names(chain, o, truth.id) && truth.stake == chain.sessions[o].stake
                  && (truth.closedAt != 0 ==> chain.sessions[o].closed)
  }

  ghost predicate TruthfulRead(cfg: Config, chain: Chain, read: Reply<Truth>) {
    read.Ok? ==> SaysTruth(cfg, chain, read.value)
  }

  /** No row of another operation ever carried this chain id. */
  predicate NotTaken(ids: Ids, id: Id, chainId: Id) {
    forall pair :: pair in ids.carried && pair.1 == chainId && pair.0 != id ==> pair.0 in ids.adopted
  }

  /** Receipts report what was mined. */
  ghost predicate Reported(mined: map<Tx, bool>, txs: seq<Tx>, receipts: seq<Receipt>) {
    |receipts| == |txs| &&
    forall i :: 0 <= i < |txs| && receipts[i].Some? ==> txs[i] in mined && mined[txs[i]] == receipts[i].value
  }

  /** The row's transactions are those of a completed journal of an operation that builds without sending. */
  ghost predicate FromCompleted(j: Joint, row: Row) {
    row.id in j.n.quiet && exists p :: (row.id, p) in j.seen && p.completed && p.transactions == row.transactions
  }

  ghost predicate SourcedReconcile(cfg: Config, care: Care, j: Joint, step: ReconcileStep) {
    match step
    case FromJournal(snapshot, progress, _) =>
      progress.Some? ==>
        if snapshot.state.OpenUnknown? then (snapshot.id, progress.value) in j.seen
        else snapshot.closeOp.Some? && (snapshot.closeOp.value, progress.value) in j.seen
    case FromReceipts(id, receipts, _) =>
      id in j.w.gw.rows && receipts.Ok? ==>
        && Reported(j.mined, OpenTxs(j.w.gw.rows[id].transactions), receipts.value)
        && (care.completedOnly ==> FromCompleted(j, j.w.gw.rows[id]))
    case FromTruth(_, read, _, _) => TruthfulRead(cfg, j.w.chain, read)
    case BindSession(id, chainId, truth) =>
      && SaysTruth(cfg, j.w.chain, truth)
      && (care.freshBinds && BindAllowed(cfg, j.w.gw, id, chainId, truth) ==> NotTaken(j.ids, id, chainId))
    case NoteCandidate(_, _, _) => true
    case AdoptSession(rowId, truth, _, _) => SaysTruth(cfg, j.w.chain, truth) && NeverOpens(j.w.chain, rowId)
  }

  ghost predicate SourcedOpen(cfg: Config, care: Care, j: Joint, step: OpenStep)
    requires CanOpen(j.w.gw, step)
  {
    match step
    case SubmitOpen(_, newId, _) =>
      HonestOpen(cfg, j.w, step) && newId !in j.n.files && !Named(j.ids.carried, newId) && newId !in j.ids.adopted
    case ReplyOpen(answered, _) =>
      && (answered.Err? && answered.failure.outcome.NotSubmitted? ==> j.w.gw.lock.row.id in j.refused)
      && (answered.Ok? && answered.value.sessionId.Some? ==>
            (j.w.gw.lock.row.id, answered.value.sessionId.value) in j.ids.named)
    case ConfirmOpen(confirmed, _) =>
      && TruthfulRead(cfg, j.w.chain, confirmed)
      && (care.unknownReads && confirmed.Err? ==> confirmed.failure.outcome.UnknownOutcome?)
    case _ => true
  }

  ghost predicate Sourced(cfg: Config, care: Care, j: Joint, step: Step)
    requires Enabled(j.w.gw, step)
  {
    match step
    case Opens(o) => SourcedOpen(cfg, care, j, o)
    case Closes(SubmitClose(read, _, _)) => TruthfulRead(cfg, j.w.chain, read)
    case Closes(ConfirmClose(read, _)) => TruthfulRead(cfg, j.w.chain, read)
    case Reconciles(r) => SourcedReconcile(cfg, care, j, r)
    case Borrows(VerifyAcquire(_, read, _, _)) => TruthfulRead(cfg, j.w.chain, read)
    case _ => Honest(cfg, j.w, step)
  }

  /** An open that was broadcast and is not mined may land, once per operation. */
  ghost predicate JointCan(cfg: Config, care: Care, j: Joint, step: JointStep) {
    match step
    case Act(g) => Enabled(j.w.gw, g) && Sourced(cfg, care, j, g)
    case Serve(call) =>
      CanStep(j.n, call) && Filed(j.n) && (call.Name? ==> Names(j.w.chain, call.id, call.session))
    case Land(id, tx, chainId, stake) =>
      (id, tx) in j.n.sent && tx.kind.OpenTx? && tx !in j.mined && ChainCan(j.w, OpenLands(id, chainId, stake))
    case Revert(tx) => tx !in j.mined && exists id :: (id, tx) in j.n.sent
    case Drift(e) => !e.OpenLands? && !e.OpenDies? && ChainCan(j.w, e)
  }

  /** Requests that end with nothing announced, or before the open was tried, answer `not_submitted`. */
  predicate Refuses(n: Node, call: NodeStep) {
    call.End? && call.id in n.jobs
    && (n.jobs[call.id].memory.stage.StageNotSubmitted? || !n.jobs[call.id].mainTried)
  }

  function Contents(files: map<Id, File>): set<(Id, Progress)> {
    set id | id in files && files[id].Written? :: (id, files[id].progress)
  }

  ghost function Served(j: Joint, call: NodeStep): Joint
    requires CanStep(j.n, call) && Filed(j.n)
  {
    var n' := NodeApply(j.n, call);
    j.(n := n', seen := j.seen + Contents(n'.files),
       refused := if Refuses(j.n, call) then j.refused + {call.id} else j.refused,
       ids := if call.Name? then j.ids.(named := j.ids.named + {(call.id, call.session)}) else j.ids)
  }

  ghost function Acted(cfg: Config, j: Joint, g: Step): Joint
    requires Enabled(j.w.gw, g)
  {
    var w := GatewayStep(cfg, j.w, g);
    var adopted := if g.Reconciles? && g.r.AdoptSession? then j.ids.adopted + {g.r.rowId} else j.ids.adopted;
    j.(w := w, ids := j.ids.(carried := Grown(j.ids.carried, w.gw), adopted := adopted))
  }

  ghost function JointApply(cfg: Config, care: Care, j: Joint, step: JointStep): Joint
    requires JointCan(cfg, care, j, step)
  {
    Bury(match step
         case Act(g) => Acted(cfg, j, g)
         case Serve(call) => Served(j, call)
         case Land(id, tx, chainId, stake) =>
           j.(w := ChainApply(j.w, OpenLands(id, chainId, stake)), mined := j.mined[tx := true])
         case Revert(tx) => j.(mined := j.mined[tx := false])
         case Drift(e) => j.(w := ChainApply(j.w, e)))
  }

  ghost predicate JointRun(cfg: Config, care: Care, j: Joint, steps: seq<JointStep>, j': Joint)
    decreases |steps|
  {
    if steps == [] then j == j'
    else JointCan(cfg, care, j, steps[0]) && JointRun(cfg, care, JointApply(cfg, care, j, steps[0]), steps[1..], j')
  }

  // ---------------------------------------------------------------- the link

  ghost predicate OnlyApprovals(n: Node, id: Id) {
    forall tx :: (id, tx) in n.sent ==> tx.kind.ApprovalTx?
  }

  ghost predicate SeenSound(n: Node, id: Id, p: Progress) {
    p.completed ==>
      && Over(n, id)
      && (p.stage.StageNotSubmitted? ==> OnlyApprovals(n, id))
      && (id in n.quiet ==> forall tx :: (id, tx) in n.sent ==> tx in p.transactions)
  }

  /** The session of an operation came from an open of that operation that was mined with success. */
  ghost predicate CameFromOpen(n: Node, mined: map<Tx, bool>, id: Id) {
    exists tx :: (id, tx) in n.sent && tx.kind.OpenTx? && tx in mined && mined[tx]
  }

  ghost predicate Linked(j: Joint) {
    && NodeInv(j.n)
    && (forall id :: id in j.w.chain.sessions ==> CameFromOpen(j.n, j.mined, id))
    && (forall id :: id in j.w.chain.mayOpen ==> !Dead(j.n, j.mined, id))
    && (forall id, p :: (id, p) in j.seen ==> SeenSound(j.n, id, p))
    && (forall id :: id in j.refused ==> Over(j.n, id) && OnlyApprovals(j.n, id))
  }

  ghost predicate OneOwner(chain: Chain) {
    forall a, b :: a in chain.sessions && b in chain.sessions && chain.sessions[a].chainId == chain.sessions[b].chainId ==> a == b
  }

  /** A row that carried a chain id carried that of its own session, or was adopted. */
  ghost predicate PairsOwn(chain: Chain, ids: Ids) {
    && (forall x, c :: (x, c) in ids.carried ==> Names(chain, x, c) || x in ids.adopted)
    && (forall x :: x in ids.adopted ==> NeverOpens(chain, x))
    && (forall x, c :: (x, c) in ids.named ==> Names(chain, x, c))
  }

  ghost predicate Opener(rows: map<Id, Row>, id: Id) {
    id in rows && (rows[id].state.Opening? || rows[id].state.OpenUnknown?)
  }

  /** Every session is known by its chain id, or its opening is still undecided. */
  ghost predicate SessionsKnown(s: State, chain: Chain, carried: Carried) {
    forall o :: o in chain.sessions ==> Named(carried, o) || Opener(s.rows, o)
  }

  predicate NamesIn(named: Carried, id: Id, p: Progress) {
    p.sessionId.Some? ==> (id, p.sessionId.value) in named
  }

  /** Records mention a session only if the node named it. */
  ghost predicate RecordsName(n: Node, seen: set<(Id, Progress)>, named: Carried) {
    && (forall id :: id in n.jobs ==> NamesIn(named, id, n.jobs[id].memory))
    && (forall id :: id in n.files && n.files[id].Written? ==> NamesIn(named, id, n.files[id].progress))
    && (forall id, p :: (id, p) in seen ==> NamesIn(named, id, p))
  }

  ghost predicate Identified(j: Joint) {
    && Known(j.w.gw, j.ids.carried)
    && OneOwner(j.w.chain) && PairsOwn(j.w.chain, j.ids)
    && SessionsKnown(j.w.gw, j.w.chain, j.ids.carried)
    && RecordsName(j.n, j.seen, j.ids.named)
  }

  ghost predicate JointInv(j: Joint) {
    WorldInv(j.w) && Linked(j) && Identified(j)
  }

  /** A dead operation never opens a session. */
  lemma DeadNeverOpens(j: Joint, id: Id)
    requires Linked(j) && Dead(j.n, j.mined, id)
    ensures NeverOpens(j.w.chain, id)
  {
  }

  lemma ReceiptsShowDead(j: Joint, row: Row, receipts: seq<Receipt>)
    requires Linked(j) && FromCompleted(j, row)
    requires Reported(j.mined, OpenTxs(row.transactions), receipts) && AllReverted(OpenTxs(row.transactions), receipts)
    ensures Dead(j.n, j.mined, row.id)
  {
    var p :| (row.id, p) in j.seen && p.completed && p.transactions == row.transactions;
    assert SeenSound(j.n, row.id, p);
    forall tx | (row.id, tx) in j.n.sent && tx.kind.OpenTx? ensures tx in j.mined && !j.mined[tx] {
      OpenTxsAt(row.transactions, tx);
    }
  }

  /** A truthful answer that passes the identity check of a row with a known chain id is about its own session. */
  lemma AnswerIsOwn(cfg: Config, j: Joint, row: Row, read: Reply<Truth>)
    requires OneOwner(j.w.chain) && PairsOwn(j.w.chain, j.ids) && Covered(j.w.gw, j.w.chain)
    requires TruthfulRead(cfg, j.w.chain, read) && (row.chainId.Some? ==> Listed(j.ids.carried, row))
    ensures OwnAnswer(cfg, j.w.chain, row, read)
  {
    hide BorrowerCovers;
    hide Covers;
  }

  /**
   Exactly the condition on a bind: for a truthful answer that the gateway accepts, the session was opened by
   this operation if and only if no row of another operation ever carried its chain id.
   */
  lemma BindIsOwnIff(cfg: Config, j: Joint, id: Id, chainId: Id, truth: Truth)
    requires JointInv(j) && BindAllowed(cfg, j.w.gw, id, chainId, truth) && SaysTruth(cfg, j.w.chain, truth)
    ensures Names(j.w.chain, id, chainId) <==> NotTaken(j.ids, id, chainId)
  {
    hide Within;
    hide Linked;
    var o :| Names(j.w.chain, o, chainId);
    if NotTaken(j.ids, id, chainId) && o != id {
      OtherIsTaken(j, id, o, chainId);
    }
    if Names(j.w.chain, id, chainId) {
      forall pair | pair in j.ids.carried && pair.1 == chainId && pair.0 != id ensures pair.0 in j.ids.adopted {
        assert (pair.0, pair.1) in j.ids.carried;
      }
    }
  }

  lemma OtherIsTaken(j: Joint, id: Id, o: Id, chainId: Id)
    requires WalletSafety.WalletInv(j.w.gw) && Identified(j)
    requires Names(j.w.chain, o, chainId) && o != id && id in j.w.gw.rows && j.w.gw.rows[id].state.OpenUnknown?
    ensures !NotTaken(j.ids, id, chainId)
  {
    var s := j.w.gw;
    if Opener(s.rows, o) {
      assert WalletSafety.Unresolved(s.rows, s.ops, WalletSafety.RowItem(o));
      assert WalletSafety.Unresolved(s.rows, s.ops, WalletSafety.RowItem(id));
    } else {
      var c :| (o, c) in j.ids.carried;
      assert c == chainId && (o, c).0 == o && (o, c).1 == chainId;
    }
  }

  lemma BindIsHonest(cfg: Config, j: Joint, id: Id, chainId: Id, truth: Truth)
    requires JointInv(j) && SourcedReconcile(cfg, CAREFUL, j, BindSession(id, chainId, truth))
    ensures HonestReconcile(cfg, j.w, BindSession(id, chainId, truth))
  {
    if BindAllowed(cfg, j.w.gw, id, chainId, truth) {
      BindIsOwnIff(cfg, j, id, chainId, truth);
      hide BorrowerCovers;
      hide Covers;
    }
  }

  lemma ReconcileIsHonest(cfg: Config, j: Joint, step: ReconcileStep)
    requires JointInv(j) && SourcedReconcile(cfg, CAREFUL, j, step)
    ensures HonestReconcile(cfg, j.w, step)
  {
    hide Within;
    match step
    case FromJournal(snapshot, progress, _) =>
      if progress.Some? && progress.value.completed && progress.value.stage.StageNotSubmitted? && snapshot.state.OpenUnknown? {
        assert SeenSound(j.n, snapshot.id, progress.value);
        DeadNeverOpens(j, snapshot.id);
      }
    case FromReceipts(id, receipts, now) =>
      if id in j.w.gw.rows && j.w.gw.rows[id].state.OpenUnknown?
         && ReconcileReceipts(j.w.gw, id, receipts, now).rows[id].state.Failed? {
        ReceiptsAreHonest(j, id, receipts, now);
      }
    case FromTruth(snapshot, read, _, _) =>
      if Unchanged(j.w.gw, snapshot) {
        AnswerIsOwn(cfg, j, snapshot, read);
      }
    case BindSession(id, chainId, truth) => BindIsHonest(cfg, j, id, chainId, truth);
    case _ =>
  }

  /** Reverted receipts of a completed journal are final. */
  lemma ReceiptsAreHonest(j: Joint, id: Id, receipts: Reply<seq<Receipt>>, now: int)
    requires Linked(j) && id in j.w.gw.rows && j.w.gw.rows[id].id == id
    requires receipts.Ok? ==>
               && Reported(j.mined, OpenTxs(j.w.gw.rows[id].transactions), receipts.value)
               && FromCompleted(j, j.w.gw.rows[id])
    requires j.w.gw.rows[id].state.OpenUnknown?
    requires ReconcileReceipts(j.w.gw, id, receipts, now).rows[id].state.Failed?
    ensures NeverOpens(j.w.chain, id)
  {
    ReceiptsShowDead(j, j.w.gw.rows[id], receipts.value);
    DeadNeverOpens(j, id);
  }

  /** Answers in the hands of the lock holder and of borrowers. */
  lemma ReadIsHonest(cfg: Config, j: Joint, step: Step)
    requires JointInv(j) && JointCan(cfg, CAREFUL, j, Act(step))
    requires step.Closes? || step.Borrows? || (step.Opens? && step.o.ConfirmOpen?)
    ensures Honest(cfg, j.w, step)
  {
    hide Within;
    hide Linked;
    match step
    case Opens(ConfirmOpen(read, _)) => AnswerIsOwn(cfg, j, j.w.gw.lock.row, read);
    case Closes(SubmitClose(read, _, _)) => AnswerIsOwn(cfg, j, j.w.gw.lock.row, read);
    case Closes(ConfirmClose(read, _)) => AnswerIsOwn(cfg, j, j.w.gw.lock.row, read);
    case Borrows(VerifyAcquire(task, read, _, _)) =>
      assert BorrowerKnown(j.ids.carried, j.w.gw.mem.borrowers[task]);
      AnswerIsOwn(cfg, j, j.w.gw.mem.borrowers[task].row, read);
    case _ =>
  }

  lemma StepIsHonest(cfg: Config, j: Joint, step: Step)
    requires JointInv(j) && JointCan(cfg, CAREFUL, j, Act(step))
    ensures Honest(cfg, j.w, step)
  {
    match step
    case Opens(ReplyOpen(answered, _)) =>
      if answered.Err? && answered.failure.outcome.NotSubmitted? {
        DeadNeverOpens(j, j.w.gw.lock.row.id);
      }
    case Opens(ConfirmOpen(_, _)) => ReadIsHonest(cfg, j, step);
    case Opens(_) =>
    case Closes(_) => ReadIsHonest(cfg, j, step);
    case Borrows(_) => ReadIsHonest(cfg, j, step);
    case Reconciles(r) => ReconcileIsHonest(cfg, j, r);
    case _ =>
  }

  // ---------------------------------------------------------------- every step keeps the link

  lemma OverStays(n: Node, call: NodeStep, id: Id)
    requires CanStep(n, call) && Filed(n) && Over(n, id)
    ensures var n' := NodeApply(n, call); Over(n', id) && forall tx :: (id, tx) in n'.sent <==> (id, tx) in n.sent
    ensures id in NodeApply(n, call).quiet <==> id in n.quiet
  {
  }

  lemma SentStays(n: Node, call: NodeStep, id: Id, tx: Tx)
    requires CanStep(n, call) && Filed(n) && (id, tx) in n.sent
    ensures (id, tx) in NodeApply(n, call).sent
  {
  }

  lemma FilesAreSound(n: Node, id: Id)
    requires NodeInv(n) && id in n.files && n.files[id].Written?
    ensures SeenSound(n, id, n.files[id].progress)
  {
    assert OneSound(n, id);
  }

  lemma RefusalIsSound(n: Node, call: NodeStep)
    requires NodeInv(n) && CanStep(n, call) && Refuses(n, call)
    ensures var n' := NodeApply(n, call); Over(n', call.id) && OnlyApprovals(n', call.id)
  {
    assert OneSound(n, call.id);
  }

  lemma ServeKeepsLink(j: Joint, call: NodeStep)
    requires Linked(j) && CanStep(j.n, call)
    ensures Linked(Bury(Served(j, call)))
  {
    var n' := NodeApply(j.n, call);
    var j' := Served(j, call);
    NodeStepKeeps(j.n, call);
    forall id | id in j.w.chain.sessions ensures CameFromOpen(n', j.mined, id) {
      var tx :| (id, tx) in j.n.sent && tx.kind.OpenTx? && tx in j.mined && j.mined[tx];
      SentStays(j.n, call, id, tx);
    }
    forall id, p | (id, p) in j'.seen ensures SeenSound(n', id, p) {
      if (id, p) in j.seen {
        if p.completed {
          assert SeenSound(j.n, id, p);
          OverStays(j.n, call, id);
        }
      } else {
        FilesAreSound(n', id);
      }
    }
    forall id | id in j'.refused ensures Over(n', id) && OnlyApprovals(n', id) {
      if id in j.refused {
        OverStays(j.n, call, id);
      } else {
        RefusalIsSound(j.n, call);
      }
    }
  }

  /** Mining one more transaction. */
  lemma MineKeepsLink(j: Joint, tx: Tx, ok: bool, sessions: map<Id, OnChain>, mayOpen: map<Id, nat>)
    requires Linked(j) && tx !in j.mined
    requires forall id :: id in sessions ==> id in j.w.chain.sessions || (ok && (id, tx) in j.n.sent && tx.kind.OpenTx?)
    ensures var chain := j.w.chain.(sessions := sessions, mayOpen := mayOpen);
            Linked(Bury(j.(w := j.w.(chain := chain), mined := j.mined[tx := ok])))
  {
    var mined' := j.mined[tx := ok];
    forall id | id in sessions ensures CameFromOpen(j.n, mined', id) {
      if id in j.w.chain.sessions {
        var t :| (id, t) in j.n.sent && t.kind.OpenTx? && t in j.mined && j.mined[t];
        assert t in mined' && mined'[t];
      } else {
        assert tx in mined' && mined'[tx];
      }
    }
  }

  /** A step of gateway or chain that mines nothing. */
  lemma PlainKeepsLink(j: Joint, w: World, ids: Ids)
    requires Linked(j) && w.chain.sessions.Keys == j.w.chain.sessions.Keys
    ensures Linked(Bury(j.(w := w, ids := ids)))
  {
  }

  lemma JointStepKeepsLink(cfg: Config, care: Care, j: Joint, step: JointStep)
    requires Linked(j) && JointCan(cfg, care, j, step)
    ensures Linked(JointApply(cfg, care, j, step))
  {
    hide Linked;
    hide Bury;
    match step
    case Act(g) => PlainKeepsLink(j, GatewayStep(cfg, j.w, g), Acted(cfg, j, g).ids);
    case Serve(call) => ServeKeepsLink(j, call);
    case Land(id, tx, chainId, stake) =>
      var w := ChainApply(j.w, OpenLands(id, chainId, stake));
      MineKeepsLink(j, tx, true, w.chain.sessions, w.chain.mayOpen);
    case Revert(tx) => MineKeepsLink(j, tx, false, j.w.chain.sessions, j.w.chain.mayOpen);
    case Drift(e) => PlainKeepsLink(j, ChainApply(j.w, e), j.ids);
  }

  // ---------------------------------------------------------------- every step keeps what is known about ids

  /** New pairs are the node's, the operation's own, or an adoption's. */
  lemma NewPairIsOwn(cfg: Config, j: Joint, g: Step, pair: (Id, Id))
    requires JointInv(j) && JointCan(cfg, CAREFUL, j, Act(g)) && NewPair(cfg, j.w.gw, g) == Some(pair)
    ensures Names(j.w.chain, pair.0, pair.1) || pair.0 in Acted(cfg, j, g).ids.adopted
  {
    hide Within;
    hide Linked;
    hide Covered;
    match g
    case Reconciles(BindSession(id, chainId, truth)) =>
      if BindAllowed(cfg, j.w.gw, id, chainId, truth) {
        BindIsOwnIff(cfg, j, id, chainId, truth);
      }
    case Reconciles(FromJournal(snapshot, progress, _)) =>
      if progress.Some? {
        assert (snapshot.id, progress.value) in j.seen ==> NamesIn(j.ids.named, snapshot.id, progress.value);
      }
    case _ =>
  }

  lemma GatewayKeepsPairs(cfg: Config, j: Joint, g: Step)
    requires JointInv(j) && JointCan(cfg, CAREFUL, j, Act(g))
    ensures PairsOwn(j.w.chain, Acted(cfg, j, g).ids)
  {
    hide WorldInv;
    hide Linked;
    var j' := Acted(cfg, j, g);
    StepFrame(cfg, j.w.gw, j.ids.carried, g);
    AdoptedNeverOpen(cfg, j, g);
    forall x, c | (x, c) in j'.ids.carried ensures Names(j.w.chain, x, c) || x in j'.ids.adopted {
      if (x, c) !in j.ids.carried {
        assert NewPair(cfg, j.w.gw, g) == Some((x, c));
        NewPairIsOwn(cfg, j, g, (x, c));
      }
    }
    hide JointCan;
    hide Known;
  }

  lemma AdoptedNeverOpen(cfg: Config, j: Joint, g: Step)
    requires PairsOwn(j.w.chain, j.ids) && JointCan(cfg, CAREFUL, j, Act(g))
    ensures forall x :: x in Acted(cfg, j, g).ids.adopted ==> NeverOpens(j.w.chain, x)
  {
  }

  /** An opening is decided only by naming its session, or because there is none. */
  lemma GatewayKeepsSessions(cfg: Config, j: Joint, g: Step)
    requires Known(j.w.gw, j.ids.carried) && SessionsKnown(j.w.gw, j.w.chain, j.ids.carried) && Enabled(j.w.gw, g)
    requires var t := Apply(cfg, j.w.gw, g);
             Known(t, Grown(j.ids.carried, t)) && Frame(j.w.gw, j.ids.carried, t, NewPair(cfg, j.w.gw, g))
             && Covered(t, Settle(j.w.chain, j.w.gw, t))
    ensures var t := Apply(cfg, j.w.gw, g); SessionsKnown(t, j.w.chain, Grown(j.ids.carried, t))
  {
    var s, t := j.w.gw, Apply(cfg, j.w.gw, g);
    var carried' := Grown(j.ids.carried, t);
    forall o | o in j.w.chain.sessions ensures Named(carried', o) || Opener(t.rows, o) {
      if Named(j.ids.carried, o) {
        var c :| (o, c) in j.ids.carried;
        assert (o, c) in carried';
      } else {
        assert Live(s.rows[o]);
        assert RowKnown(carried', t.rows[o]) && Covers(Settle(j.w.chain, s, t), t.rows[o]);
        if t.rows[o].chainId.Some? {
          assert (o, t.rows[o].chainId.value) in carried';
        }
      }
    }
  }

  /** The submission of an open does not touch what was known: its id is new. */
  lemma SettledPairs(cfg: Config, j: Joint, g: Step)
    requires JointCan(cfg, CAREFUL, j, Act(g)) && Honest(cfg, j.w, g)
    requires PairsOwn(j.w.chain, j.ids) && PairsOwn(j.w.chain, Acted(cfg, j, g).ids)
    ensures PairsOwn(Acted(cfg, j, g).w.chain, Acted(cfg, j, g).ids)
  {
    if !g.Opens? {
      OtherOpenerFrame(cfg, j.w, g);
    }
    hide LiveStakes;
  }

  lemma GatewayIdentified(cfg: Config, j: Joint, g: Step)
    requires Identified(j) && Enabled(j.w.gw, g)
    requires Known(Acted(cfg, j, g).w.gw, Acted(cfg, j, g).ids.carried)
    requires PairsOwn(Acted(cfg, j, g).w.chain, Acted(cfg, j, g).ids)
    requires SessionsKnown(Acted(cfg, j, g).w.gw, j.w.chain, Acted(cfg, j, g).ids.carried)
    ensures Identified(Bury(Acted(cfg, j, g)))
  {
    hide Known;
    hide RecordsName;
  }

  lemma ActKeepsIdentified(cfg: Config, j: Joint, g: Step)
    requires JointInv(j) && JointCan(cfg, CAREFUL, j, Act(g))
    ensures Identified(Bury(Acted(cfg, j, g)))
  {
    hide Known;
    hide Linked;
    hide Covered;
    hide Within;
    hide SessionsKnown;
    hide PairsOwn;
    hide RecordsName;
    var s := j.w.gw;
    StepKnown(cfg, s, j.ids.carried, g);
    StepFrame(cfg, s, j.ids.carried, g);
    StepIsHonest(cfg, j, g);
    WorldStepKeeps(cfg, j.w, Gateway(g));
    GatewayKeepsPairs(cfg, j, g);
    GatewayKeepsSessions(cfg, j, g);
    SettledPairs(cfg, j, g);
    GatewayIdentified(cfg, j, g);
  }

  lemma ServeKeepsIdentified(j: Joint, call: NodeStep)
    requires Identified(j) && CanStep(j.n, call) && Filed(j.n)
    requires call.Name? ==> Names(j.w.chain, call.id, call.session)
    ensures Identified(Bury(Served(j, call)))
  {
    hide Known;
    RecordsStayNamed(j, call);
    hide RecordsName;
  }

  lemma RecordsStayNamed(j: Joint, call: NodeStep)
    requires RecordsName(j.n, j.seen, j.ids.named) && CanStep(j.n, call) && Filed(j.n)
    ensures var j' := Served(j, call); RecordsName(j'.n, j'.seen, j'.ids.named)
  {
    var j' := Served(j, call);
    forall id | id in j'.n.jobs ensures NamesIn(j'.ids.named, id, j'.n.jobs[id].memory) {
      if id in j.n.jobs {
        assert NamesIn(j.ids.named, id, j.n.jobs[id].memory);
      }
    }
    forall id | id in j'.n.files && j'.n.files[id].Written? ensures NamesIn(j'.ids.named, id, j'.n.files[id].progress) {
      if id in j.n.jobs {
        assert NamesIn(j.ids.named, id, j.n.jobs[id].memory);
      }
      if id in j.n.files && j.n.files[id].Written? {
        assert NamesIn(j.ids.named, id, j.n.files[id].progress);
      }
    }
    forall id, p | (id, p) in j'.seen ensures NamesIn(j'.ids.named, id, p) {
      if (id, p) in j.seen {
        assert NamesIn(j.ids.named, id, p);
      } else {
        assert id in j'.n.files && j'.n.files[id] == Written(p);
      }
    }
  }

  lemma LandKeepsIdentified(j: Joint, id: Id, tx: Tx, chainId: Id, stake: nat)
    requires Identified(j) && Covered(j.w.gw, j.w.chain) && ChainCan(j.w, OpenLands(id, chainId, stake))
    ensures Identified(Bury(j.(w := ChainApply(j.w, OpenLands(id, chainId, stake)), mined := j.mined[tx := true])))
  {
    hide Known;
    hide RecordsName;
    hide BorrowerCovers;
    assert Covers(j.w.chain, j.w.gw.rows[id]) && Opener(j.w.gw.rows, id);
  }

  lemma DriftKeepsIdentified(j: Joint, e: ChainStep)
    requires Identified(j) && ChainCan(j.w, e) && !e.OpenLands? && !e.OpenDies?
    ensures Identified(Bury(j.(w := ChainApply(j.w, e))))
  {
    hide Known;
    hide RecordsName;
  }

  // ---------------------------------------------------------------- the budget over whole runs

  lemma BuryKeepsWorld(j: Joint)
    requires WorldInv(j.w)
    ensures WorldInv(Bury(j).w)
  {
    var chain, chain' := j.w.chain, Bury(j).w.chain;
    ForgetCovered(j.w.gw, chain, chain'.mayOpen);
    TotalSub(chain.mayOpen, chain'.mayOpen);
    assert LiveStakes(chain') == LiveStakes(chain);
  }

  lemma JointStepKeepsWorld(cfg: Config, j: Joint, step: JointStep)
    requires JointInv(j) && JointCan(cfg, CAREFUL, j, step)
    ensures WorldInv(JointApply(cfg, CAREFUL, j, step).w)
  {
    hide WorldInv;
    hide Bury;
    hide Linked;
    hide Identified;
    match step
    case Act(g) =>
      StepIsHonest(cfg, j, g);
      WorldStepKeeps(cfg, j.w, Gateway(g));
      BuryKeepsWorld(Acted(cfg, j, g));
    case Serve(call) => BuryKeepsWorld(Served(j, call));
    case Land(id, tx, chainId, stake) =>
      WorldStepKeeps(cfg, j.w, Environment(OpenLands(id, chainId, stake)));
      BuryKeepsWorld(j.(w := ChainApply(j.w, OpenLands(id, chainId, stake)), mined := j.mined[tx := true]));
    case Revert(tx) => BuryKeepsWorld(j.(mined := j.mined[tx := false]));
    case Drift(e) =>
      WorldStepKeeps(cfg, j.w, Environment(e));
      BuryKeepsWorld(j.(w := ChainApply(j.w, e)));
  }

  lemma RevertKeepsIdentified(j: Joint, tx: Tx)
    requires Identified(j)
    ensures Identified(Bury(j.(mined := j.mined[tx := false])))
  {
    hide Known;
    hide RecordsName;
  }

  lemma JointStepKeeps(cfg: Config, j: Joint, step: JointStep)
    requires JointInv(j) && JointCan(cfg, CAREFUL, j, step)
    ensures JointInv(JointApply(cfg, CAREFUL, j, step))
  {
    JointStepKeepsLink(cfg, CAREFUL, j, step);
    JointStepKeepsWorld(cfg, j, step);
    hide Bury;
    hide Linked;
    hide Identified;
    hide Covered;
    hide Within;
    match step
    case Act(g) => ActKeepsIdentified(cfg, j, g);
    case Serve(call) => ServeKeepsIdentified(j, call);
    case Land(id, tx, chainId, stake) => LandKeepsIdentified(j, id, tx, chainId, stake);
    case Revert(tx) => RevertKeepsIdentified(j, tx);
    case Drift(e) => DriftKeepsIdentified(j, e);
  }

  lemma {:induction false} JointRunKeeps(cfg: Config, j: Joint, steps: seq<JointStep>, j': Joint)
    requires JointInv(j) && JointRun(cfg, CAREFUL, j, steps, j')
    ensures JointInv(j')
    decreases |steps|
  {
    hide JointInv;
    if steps != [] {
      JointStepKeeps(cfg, j, steps[0]);
      JointRunKeeps(cfg, JointApply(cfg, CAREFUL, j, steps[0]), steps[1..], j');
    }
  }

  /** A new gateway and a new node over a wallet with these held and withdrawable amounts. */
  ghost function Begun(s: State, hold: nat, available: nat): Joint {
    Joint(World(s, Chain(map[], map[], hold, available), None), NEW_NODE, map[], {}, {}, Ids({}, {}, {}))
  }

  lemma BegunIsSound(s: State, hold: nat, available: nat)
    requires Init(s) && hold + available <= s.policy.maxTotalStake
    ensures JointInv(Begun(s, hold, available))
  {
    FreshWorld(s, hold, available);
  }

  /**
   Gateway, node and chain from the start: with failed confirming reads counted as unknown, pass 3 waiting
   for a completed journal, and binds only to chain ids that no other operation's row ever carried, the true
   exposure stays within the fixed budget in every run.
   */
  lemma JointExposureWithinBudget(cfg: Config, s: State, hold: nat, available: nat, steps: seq<JointStep>, j: Joint)
    requires Init(s) && hold + available <= s.policy.maxTotalStake
    requires JointRun(cfg, CAREFUL, Begun(s, hold, available), steps, j)
    ensures ExposureOf(j.w.chain) <= j.w.gw.policy.maxTotalStake
  {
    BegunIsSound(s, hold, available);
    JointRunKeeps(cfg, Begun(s, hold, available), steps, j);
  }
}
