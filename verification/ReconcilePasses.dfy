/**
 The journal and truth passes of `reconcile` linearize.

 The protocol machine runs each pass over one row as a single step.  The source reads the row, awaits the
 chain, compares, perhaps awaits receipts, and compares again, while every other task keeps running.  Here
 that interleaved execution is compared with the atomic one.
 */
module ReconcilePasses {
  import opened Options
  import opened SessionRows
  import opened Protocol
  import opened WalletSafety
  import opened UncertainOutcome

  /** Where pass 2 stands after the chain answered about a row read earlier. */
  datatype Progressing = Done(state: State) | AwaitingReceipts

  /** First segment of pass 2: from the chain's answer to the next await. */
  function TruthArrives(cfg: Config, s: State, snapshot: Row, read: Reply<Truth>, now: int): Progressing {
    if read.Cancelled? then Done(s)
    else if read.Err? then Done(if Unchanged(s, snapshot) then PutRow(s, MarkError(snapshot, now)) else s)
    else if !Unchanged(s, snapshot) then Done(s)
    else if !ValidTruth(cfg.wallet, snapshot, read.value) then Done(PutRow(s, MarkError(snapshot, now)))
    else if read.value.closedAt != 0 then Done(PutRow(s, RecordClosed(snapshot, read.value)))
    else if snapshot.state.ClosePending? then AwaitingReceipts
    else Done(PutRow(s, RunningRow(snapshot, read.value, TxUnknown, now)))
  }

  /** Second segment, only for a pending close: the receipts arrived. */
  ghost function ReceiptsArrive(s: State, snapshot: Row, truth: Truth, receipts: Reply<seq<Receipt>>, now: int): State {
    if receipts.Cancelled? || !Unchanged(s, snapshot) then s
    else if receipts.Err? then PutRow(s, MarkError(snapshot, now))
    else PutRow(s, RunningRow(snapshot, truth, CloseTxState(snapshot, receipts), now))
  }

  /** The interleaved pass: other tasks run `before` the chain's answer and `between` it and the receipts. */
  ghost predicate Interleaved(cfg: Config, s: State, before: seq<Step>, read: Reply<Truth>, now: int,
                              between: seq<Step>, receipts: Reply<seq<Receipt>>, snapshot: Row, t: State)
  {
    exists s1 :: Run(cfg, s, before, s1) &&
      match TruthArrives(cfg, s1, snapshot, read, now)
      case Done(s2) => Run(cfg, s2, between, t)
      case AwaitingReceipts =>
        exists s3 :: Run(cfg, s1, between, s3) && t == ReceiptsArrive(s3, snapshot, read.value, receipts, now)
  }

  lemma RunOne(cfg: Config, s: State, step: Step)
    requires Enabled(s, step)
    ensures Run(cfg, s, [step], Apply(cfg, s, step))
  {
    assert Run(cfg, Apply(cfg, s, step), [step][1..], Apply(cfg, s, step));
  }

  /** Every interleaved pass 2 ends in a state that the same tasks reach around one atomic step. */
  lemma TruthPassLinearizes(cfg: Config, s: State, before: seq<Step>, read: Reply<Truth>, now: int,
                            between: seq<Step>, receipts: Reply<seq<Receipt>>, snapshot: Row, t: State)
    requires snapshot.chainId.Some?
    requires Interleaved(cfg, s, before, read, now, between, receipts, snapshot, t)
    ensures var step := Reconciles(FromTruth(snapshot, read, receipts, now));
            || Run(cfg, s, before + ([step] + between), t)
            || Run(cfg, s, before + (between + [step]), t)
  {
    hide Run;
    var step := Reconciles(FromTruth(snapshot, read, receipts, now));
    var s1 :| Run(cfg, s, before, s1) &&
      match TruthArrives(cfg, s1, snapshot, read, now)
      case Done(s2) => Run(cfg, s2, between, t)
      case AwaitingReceipts =>
        exists s3 :: Run(cfg, s1, between, s3) && t == ReceiptsArrive(s3, snapshot, read.value, receipts, now);
    match TruthArrives(cfg, s1, snapshot, read, now) {
      case Done(s2) =>
        assert Apply(cfg, s1, step) == s2;
        RunOne(cfg, s1, step);
        RunConcat(cfg, s1, [step], s2, between, t);
        RunConcat(cfg, s, before, s1, [step] + between, t);
      case AwaitingReceipts =>
        var s3 :| Run(cfg, s1, between, s3) && t == ReceiptsArrive(s3, snapshot, read.value, receipts, now);
        assert Apply(cfg, s3, step) == t;
        RunOne(cfg, s3, step);
        RunConcat(cfg, s1, between, s3, [step], t);
        RunConcat(cfg, s, before, s1, between + [step], t);
    }
  }

  /** Steps of the two guarded passes. */
  predicate GuardedPass(step: Step) {
    step.Reconciles? && (step.r.FromJournal? || step.r.FromTruth?)
  }

  /**
   A guarded pass touches only a row that still equals what it read: a row drained, sent for closing or closed
   meanwhile is left alone.  On an equal row it changes the state only out of doubt, or to closed.
   */
  lemma NeverOverwrites(cfg: Config, s: State, step: Step, id: Id)
    requires GuardedPass(step) && Keyed(s) && id in s.rows
    ensures var t := Apply(cfg, s, step);
            && t == s.(rows := t.rows) && t.rows.Keys == s.rows.Keys
            && (s.rows[id] != step.r.snapshot ==> t.rows[id] == s.rows[id])
            && (t.rows[id].state != s.rows[id].state ==>
                  || s.rows[id].state.OpenUnknown? || s.rows[id].state.ClosePending?
                  || s.rows[id].state.Quarantined? || t.rows[id].state.Closed?)
  {
    var t := Apply(cfg, s, step);
    assert t == s || (Unchanged(s, step.r.snapshot) && t == PutRow(s, t.rows[step.r.snapshot.id]));
  }
}
