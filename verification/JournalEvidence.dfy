/**
 Node and gateway together: what the reconciler concludes from the journal and from receipts, against what
 the node really broadcast.
 */
module JournalEvidence {
  import opened Options
  import opened SessionRows
  import opened NodeJournal

  /**
   Node and gateway together: if the journal makes the gateway give up an uncertain opening, that opening
   broadcast no open transaction and never will; if it makes the gateway retry a close, no close was sent.
   */
  lemma JournalNeverDiscards(steps: seq<NodeStep>, n: Node, later: seq<NodeStep>, n': Node, row: Row, now: int)
    requires NodeRun(NEW_NODE, steps, n) && NodeRun(n, later, n')
    requires row.state.OpenUnknown? || (row.state.ClosePending? && row.closeOp.Some?)
    ensures var op := if row.state.OpenUnknown? then row.id else row.closeOp.value;
            var answer := HelperAnswer(n, op);
            answer.Some? && JournalRow(row, answer.value, now).state != row.state ==>
              forall tx :: (op, tx) in n'.sent ==> tx.kind.ApprovalTx?
  {
    var op := if row.state.OpenUnknown? then row.id else row.closeOp.value;
    var answer := HelperAnswer(n, op);
    if answer.Some? && JournalRow(row, answer.value, now).state != row.state {
      SilentMeansNeverSent(steps, n, op, later, n');
    }
  }

  lemma {:induction false} OpenTxsAt(txs: seq<Tx>, tx: Tx)
    requires tx in txs && tx.kind.OpenTx?
    ensures tx in OpenTxs(txs)
  {
    if txs[0] != tx {
      OpenTxsAt(txs[1..], tx);
    }
  }

  /** The receipts by which pass 3 of `reconcile` gives up an opening. */
  ghost predicate AllReverted(txs: seq<Tx>, receipts: seq<Receipt>) {
    |receipts| == |txs| && TransactionState(txs, receipts).TxFailed?
  }

  /**
   Reverted receipts are conclusive for a completed journal: every open transaction that was or will be
   broadcast for the operation is one of those whose receipt says reverted.
   */
  lemma RevertedIsConclusive(steps: seq<NodeStep>, n: Node, later: seq<NodeStep>, n': Node, id: Id,
                             receipts: seq<Receipt>, tx: Tx)
    requires NodeRun(NEW_NODE, steps, n) && NodeRun(n, later, n')
    requires id in n.files && Completed(n.files[id]) && id in n.quiet
    requires AllReverted(OpenTxs(n.files[id].progress.transactions), receipts)
    requires (id, tx) in n'.sent && tx.kind.OpenTx?
    ensures var txs := OpenTxs(n.files[id].progress.transactions);
            exists i :: 0 <= i < |txs| && txs[i] == tx && receipts[i] == Some(false)
  {
    CompletedListsAllSent(steps, n, id, later, n');
    OpenTxsAt(n.files[id].progress.transactions, tx);
  }

  // ---------------------------------------------------------------- exactly the completed journals are conclusive

  lemma {:induction false} NodeConcat(n: Node, first: seq<NodeStep>, m: Node, second: seq<NodeStep>, n': Node)
    requires NodeRun(n, first, m) && NodeRun(m, second, n')
    ensures NodeRun(n, first + second, n')
    decreases |first|
  {
    if first == [] {
      assert first + second == second;
    } else {
      assert (first + second)[1..] == first[1..] + second;
      NodeConcat(NodeApply(n, first[0]), first[1..], m, second, n');
    }
  }

  lemma NodeSnoc(n: Node, steps: seq<NodeStep>, m: Node, step: NodeStep)
    requires NodeRun(n, steps, m) && CanStep(m, step) && Filed(m)
    ensures NodeRun(n, steps + [step], NodeApply(m, step))
  {
    var n' := NodeApply(m, step);
    assert NodeRun(n', [step][1..], n');
    NodeConcat(n, steps, m, [step], n');
  }

  lemma RunThree(n: Node, steps: seq<NodeStep>) returns (n': Node)
    requires |steps| == 3 && Filed(n) && CanStep(n, steps[0])
    requires var n1 := NodeApply(n, steps[0]);
             Filed(n1) && CanStep(n1, steps[1])
    requires var n2 := NodeApply(NodeApply(n, steps[0]), steps[1]);
             Filed(n2) && CanStep(n2, steps[2])
    ensures n' == NodeApply(NodeApply(NodeApply(n, steps[0]), steps[1]), steps[2]) && NodeRun(n, steps, n')
  {
    var n1 := NodeApply(n, steps[0]);
    var n2 := NodeApply(n1, steps[1]);
    n' := NodeApply(n2, steps[2]);
    assert NodeRun(n', steps[2..][1..], n');
    assert NodeRun(n2, steps[1..][1..], n');
  }

  /** The record that the helper serves for an opening built without sending, in some run of the node. */
  ghost predicate Answers(steps: seq<NodeStep>, n: Node, id: Id, p: Progress) {
    && NodeRun(NEW_NODE, steps, n) && HelperAnswer(n, id) == Some(p)
    && id in n.quiet && n.quiet[id].OpenTx?
  }

  /** Whenever this record is served, it lists every open of the operation that is ever broadcast. */
  ghost predicate Conclusive(id: Id, p: Progress) {
    forall steps, n, later, n', tx ::
      Answers(steps, n, id, p) && NodeRun(n, later, n') && (id, tx) in n'.sent && tx.kind.OpenTx? ==> tx in p.transactions
  }

  /** A run after which the record is in the file of a request that is still being served. */
  ghost predicate StillServed(steps: seq<NodeStep>, n: Node, id: Id, p: Progress) {
    && NodeRun(NEW_NODE, steps, n) && id in n.jobs && id in n.files && n.files[id] == Written(p)
    && n.jobs[id].main.OpenTx? && n.jobs[id].noSend
  }

  /** What an unfinished record has left behind was served while the request was running. */
  ghost predicate Traced(n: Node, id: Id) {
    id in n.files && n.files[id].Written? && !n.files[id].progress.completed && id in n.quiet && n.quiet[id].OpenTx? ==>
      exists steps, m :: StillServed(steps, m, id, n.files[id].progress)
  }

  lemma TracedStep(steps: seq<NodeStep>, n: Node, step: NodeStep, id: Id)
    requires NodeRun(NEW_NODE, steps, n) && NodeInv(n) && CanStep(n, step) && Traced(n, id)
    ensures Traced(NodeApply(n, step), id)
  {
    var n' := NodeApply(n, step);
    NodeStepKeeps(n, step);
    assert OneSound(n, id) && OneSound(n', id);
    if id in n'.files && n'.files[id].Written? && !n'.files[id].progress.completed && id in n'.quiet && n'.quiet[id].OpenTx? {
      if id in n'.jobs {
        NodeSnoc(NEW_NODE, steps, n, step);
        assert StillServed(steps + [step], n', id, n'.files[id].progress);
      } else {
        assert id in n.files && n'.files[id] == n.files[id] && id in n.quiet && n.quiet[id] == n'.quiet[id];
      }
    }
  }

  lemma {:induction false} AlwaysTraced(steps: seq<NodeStep>, n: Node, rest: seq<NodeStep>, n': Node, id: Id)
    requires NodeRun(NEW_NODE, steps, n) && NodeInv(n) && NodeRun(n, rest, n') && Traced(n, id)
    ensures Traced(n', id)
    decreases |rest|
  {
    if rest != [] {
      TracedStep(steps, n, rest[0], id);
      NodeStepKeeps(n, rest[0]);
      NodeSnoc(NEW_NODE, steps, n, rest[0]);
      AlwaysTraced(steps + [rest[0]], NodeApply(n, rest[0]), rest[1..], n', id);
    }
  }

  /** Calls in the middle of a request. */
  predicate Working(call: NodeStep) {
    call.Try? || call.Build? || call.Broadcast? || call.Name?
  }

  /** From any state, a request for an open that is being served may still broadcast any open transaction. */
  lemma ServedMaySend(n: Node, id: Id, tx: Tx) returns (later: seq<NodeStep>, n': Node)
    requires NodeInv(n) && id in n.jobs && n.jobs[id].main.OpenTx? && tx.kind.OpenTx?
    ensures NodeRun(n, later, n') && (id, tx) in n'.sent && forall i :: 0 <= i < |later| ==> Working(later[i]) && !later[i].Name?
  {
    if n.jobs[id].building.None? {
      later, n' := IdleMaySend(n, id, tx);
    } else {
      var build := Build(id, false, None, None, Stored, Stored);
      var m := NodeApply(n, build);
      NodeStepKeeps(n, build);
      var rest;
      rest, n' := IdleMaySend(m, id, tx);
      assert ([build] + rest)[1..] == rest;
      later := [build] + rest;
    }
  }

  lemma IdleMaySend(n: Node, id: Id, tx: Tx) returns (later: seq<NodeStep>, n': Node)
    requires NodeInv(n) && id in n.jobs && n.jobs[id].main.OpenTx? && n.jobs[id].building.None? && tx.kind.OpenTx?
    ensures NodeRun(n, later, n') && (id, tx) in n'.sent && forall i :: 0 <= i < |later| ==> Working(later[i]) && !later[i].Name?
  {
    var i := |n.jobs[id].memory.transactions|;
    var attempt, build := Try(id, OpenTx, Stored), Build(id, false, Some(tx), None, Stored, Stored);
    later := [attempt, build, Broadcast(id, i)];
    NodeStepKeeps(n, attempt);
    var n1 := NodeApply(n, attempt);
    NodeStepKeeps(n1, build);
    assert NodeApply(n1, build).jobs[id].memory.transactions[i] == tx;
    n' := RunThree(n, later);
  }

  lemma {:induction false} FreshHash(txs: seq<Tx>) returns (h: nat)
    ensures forall i :: 0 <= i < |txs| ==> txs[i].hash < h
  {
    if txs == [] {
      h := 0;
    } else {
      var rest := FreshHash(txs[1..]);
      h := if txs[0].hash < rest then rest else txs[0].hash + 1;
      assert forall i :: 1 <= i < |txs| ==> txs[i] == txs[1..][i - 1];
    }
  }

  /**
   The exact condition on what the gateway can read: a record served for an opening is conclusive about the
   opens of the operation if and only if it is completed.
   */
  lemma ConclusiveIffCompleted(steps: seq<NodeStep>, n: Node, id: Id, p: Progress)
    requires Answers(steps, n, id, p)
    ensures Conclusive(id, p) <==> p.completed
  {
    if p.completed {
      forall s, m, later, m', tx |
        Answers(s, m, id, p) && NodeRun(m, later, m') && (id, tx) in m'.sent && tx.kind.OpenTx?
        ensures tx in p.transactions
      {
        CompletedListsAllSent(s, m, id, later, m');
      }
    } else {
      assert NodeRun(NEW_NODE, [], NEW_NODE);
      AlwaysTraced([], NEW_NODE, steps, n, id);
      var s, m :| StillServed(s, m, id, p);
      NodeRunKeeps(NEW_NODE, s, m);
      assert OneSound(m, id);
      var h := FreshHash(p.transactions);
      var tx := Tx(OpenTx, h, true);
      var later, m' := ServedMaySend(m, id, tx);
      assert Answers(s, m, id, p);
    }
  }

  // ---------------------------------------------------------------- one such run

  const FIRST := Tx(OpenTx, 1, true)
  const RETRY := Tx(OpenTx, 2, true)

  function OneOpen(tx: Tx, i: nat): seq<NodeStep> {
    [Try(5, OpenTx, Stored), Build(5, false, Some(tx), None, Stored, Stored), Broadcast(5, i)]
  }

  const SERVING := Node(map[5 := Written(BEGUN)], map[5 := Job(OpenTx, true, false, None, BEGUN)], {}, map[5 := OpenTx])

  /**
   While the operation is still running they are not: the one recorded open reverts, the gateway reads the
   journal and gives the row up, and then the node broadcasts a second open of the same operation.
   */
  lemma RunningIsNot() returns (steps: seq<NodeStep>, n: Node, later: seq<NodeStep>, n': Node)
    ensures NodeRun(NEW_NODE, steps, n) && NodeRun(n, later, n') && 5 in n.files && 5 in n.quiet
    ensures var answer := HelperAnswer(n, 5);
            && answer.Some? && !answer.value.completed
            && AllReverted(OpenTxs(answer.value.transactions), [Some(false)])
            && RETRY !in answer.value.transactions
    ensures (5, RETRY) in n'.sent
  {
    var begin := Begin(5, OpenTx, true, true, Stored);
    assert NodeApply(NEW_NODE, begin) == SERVING;
    n := RunThree(SERVING, OneOpen(FIRST, 0));
    steps := [begin] + OneOpen(FIRST, 0);
    assert steps[1..] == OneOpen(FIRST, 0);
    assert n.files[5].progress.transactions == [FIRST];
    assert OpenTxs([FIRST]) == [FIRST] + OpenTxs([FIRST][1..]) == [FIRST];
    later := OneOpen(RETRY, 1);
    n' := RunThree(n, later);
  }
}
