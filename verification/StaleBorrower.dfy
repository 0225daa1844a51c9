/**
 A concrete run, from an empty store, in which one session is closed twice although nothing was ever learnt
 about the first close: a borrower's old copy of the row replaces the pending close.
 */
module StaleBorrower {
  import opened Options
  import opened SessionRows
  import opened Protocol
  import opened UncertainOutcome

  lemma RunStep(cfg: Config, s: State, step: Step, rest: seq<Step>, t: State)
    requires Enabled(s, step) && Run(cfg, Apply(cfg, s, step), rest, t)
    ensures Run(cfg, s, [step] + rest, t)
  {
    assert ([step] + rest)[1..] == rest;
  }

  lemma RunPair(cfg: Config, s: State, first: Step, second: Step)
    requires Enabled(s, first) && Enabled(Apply(cfg, s, first), second)
    ensures Run(cfg, s, [first, second], Apply(cfg, Apply(cfg, s, first), second))
  {
    var s1 := Apply(cfg, s, first);
    var t := Apply(cfg, s1, second);
    assert Run(cfg, t, [], t);
    RunStep(cfg, s1, second, [], t);
    RunStep(cfg, s, first, [second], t);
    assert [second] + [] == [second] && [first] + [second] == [first, second];
  }

  // ---------------------------------------------------------------- a close that is sent and stays unanswered

  /** The lock is free, nothing else is unresolved, and the chain knows the session of the row. */
  ghost predicate Closable(cfg: Config, s: State, id: Id, truth: Truth) {
    && s.lock.Free? && !s.mem.maintenance && id in s.rows && id !in s.mem.active && s.rows[id].id == id
    && (s.rows[id].state.Open? || s.rows[id].state.Quarantined?)
    && ValidTruth(cfg.wallet, s.rows[id], truth) && truth.closedAt == 0
    && ClearWallet(s, Some(id))
  }

  /** The close of `row` under operation `op` was just handed to the node. */
  function Sent(s: State, row: Row, op: Id): State {
    var closing := row.(state := Closing, closeOp := Some(op));
    s.(rows := s.rows[row.id := closing], calls := s.calls + [CallClose(row.id, op)], lock := CloseSubmitted(closing))
  }

  lemma CloseReachesRead(cfg: Config, s: State, id: Id, truth: Truth)
    requires Closable(cfg, s, id, truth)
    ensures var row := s.rows[id].(state := Draining);
            Run(cfg, s, [Tends(RequestClose(id)), Closes(BeginClose(id))] + [Closes(CheckClose(Ok(()), 0))],
                PutRow(s, row).(lock := CloseReading(row)))
  {
    var row := s.rows[id].(state := Draining);
    var s2 := PutRow(s, row).(lock := CloseChecking(id));
    RunPair(cfg, s, Tends(RequestClose(id)), Closes(BeginClose(id)));
    assert Apply(cfg, Apply(cfg, s, Tends(RequestClose(id))), Closes(BeginClose(id))) == s2;
    var t := PutRow(s, row).(lock := CloseReading(row));
    assert Apply(cfg, s2, Closes(CheckClose(Ok(()), 0))) == t;
    assert Run(cfg, t, [], t);
    RunStep(cfg, s2, Closes(CheckClose(Ok(()), 0)), [], t);
    assert [Closes(CheckClose(Ok(()), 0))] + [] == [Closes(CheckClose(Ok(()), 0))];
    RunConcat(cfg, s, [Tends(RequestClose(id)), Closes(BeginClose(id))], s2, [Closes(CheckClose(Ok(()), 0))], t);
  }

  /** A close request on such a row reaches the node. */
  lemma CloseIsSent(cfg: Config, s: State, id: Id, truth: Truth, op: Id) returns (steps: seq<Step>)
    requires Closable(cfg, s, id, truth) && Fresh(s, op)
    ensures Run(cfg, s, steps, Sent(s, s.rows[id], op))
  {
    var row := s.rows[id].(state := Draining);
    var s3 := PutRow(s, row).(lock := CloseReading(row));
    CloseReachesRead(cfg, s, id, truth);
    var submit := Closes(SubmitClose(Ok(truth), op, 0));
    var t := Sent(s, s.rows[id], op);
    assert Apply(cfg, s3, submit).rows == t.rows;
    assert Apply(cfg, s3, submit) == t;
    assert Run(cfg, t, [], t);
    RunStep(cfg, s3, submit, [], t);
    var before := [Tends(RequestClose(id)), Closes(BeginClose(id))] + [Closes(CheckClose(Ok(()), 0))];
    RunConcat(cfg, s, before, s3, [submit] + [], t);
    steps := before + ([submit] + []);
  }

  function Pending(row: Row, op: Id): Row {
    row.(state := ClosePending, closeOp := Some(op), closeTx := None)
  }

  /** The node answers without a hash and the chain still shows the session: the close stays pending. */
  lemma CloseStaysPending(cfg: Config, s: State, row: Row, truth: Truth, op: Id) returns (steps: seq<Step>)
    requires ValidTruth(cfg.wallet, row, truth) && truth.closedAt == 0
    ensures Run(cfg, Sent(s, row, op), steps,
                Sent(s, row, op).(rows := s.rows[row.id := Pending(row, op)], lock := Free))
  {
    var sent := Sent(s, row, op);
    var t := sent.(rows := s.rows[row.id := Pending(row, op)], lock := Free);
    var reply, confirm := Closes(ReplyClose(Ok(None), 0)), Closes(ConfirmClose(Ok(truth), 0));
    var s1 := sent.(rows := s.rows[row.id := Pending(row, op)], lock := CloseConfirming(Pending(row, op)));
    assert Apply(cfg, sent, reply).rows == s1.rows;
    assert Apply(cfg, sent, reply) == s1;
    assert Apply(cfg, s1, confirm) == t;
    RunPair(cfg, sent, reply, confirm);
    steps := [reply, confirm];
  }

  // ---------------------------------------------------------------- opening a session

  const POLICY := Policy(false, 0, 4, map[7 := 2], false, {}, {}, 10, 100, 0, 0)
  const CFG := Config(1, 60, 60)

  function OpenRow(id: Id): Row {
    Row(id, Open, Some(id), 7, 8, 9, 0, 0, 1000, 5, 0, 0, [], None, [], None, {})
  }

  function RunningTruth(id: Id): Truth {
    Truth(1, 7, 8, 9, id, 1000, 0, 5, 0)
  }

  const QUOTE := Quote(8, 9, 5, 5, 0, 0, 0)

  /** An idle process over settled rows that leave room for one more session. */
  ghost predicate Idle(s: State, listing: seq<Row>) {
    && s.lock.Free? && s.mem == FRESH_MEMORY && s.policy == POLICY && ClearWallet(s, None)
    && IsListing(s.rows, listing) && |listing| <= 1 && CountModel(listing, 7) <= 1 && SumStakes(listing) <= 50
  }

  lemma OpenReachesQuote(s: State, listing: seq<Row>)
    requires Idle(s, listing)
    ensures Run(CFG, s, [Opens(BeginOpen(7)), Opens(CheckOpen(Ok(()), listing))],
                s.(lock := OpenQuoting(7, 0, POLICY, SumStakes(listing))))
  {
    var s1 := s.(lock := OpenChecking(7, 0, POLICY));
    assert Apply(CFG, s, Opens(BeginOpen(7))) == s1;
    assert Apply(CFG, s1, Opens(CheckOpen(Ok(()), listing))) == s.(lock := OpenQuoting(7, 0, POLICY, SumStakes(listing)));
    RunPair(CFG, s, Opens(BeginOpen(7)), Opens(CheckOpen(Ok(()), listing)));
  }

  function Submitted(s: State, id: Id): State {
    var row := NewRow(id, 7, QUOTE, 5, 0);
    PutRow(s, row).(calls := s.calls + [CallOpen(id, 5)], lock := OpenSubmitted(7, 0, row))
  }

  lemma OpenConfirms(s: State, id: Id)
    requires s.policy == POLICY
    ensures Run(CFG, Submitted(s, id), [Opens(ReplyOpen(Ok(OpenAnswer(Some(id), [])), 0)), Opens(ConfirmOpen(Ok(RunningTruth(id)), 0))],
                s.(rows := s.rows[id := OpenRow(id)], calls := s.calls + [CallOpen(id, 5)], lock := Free))
  {
    var reply, confirm := Opens(ReplyOpen(Ok(OpenAnswer(Some(id), [])), 0)), Opens(ConfirmOpen(Ok(RunningTruth(id)), 0));
    var row := NewRow(id, 7, QUOTE, 5, 0).(chainId := Some(id));
    var s1 := s.(rows := s.rows[id := row], calls := s.calls + [CallOpen(id, 5)], lock := OpenConfirming(7, 0, row));
    assert Apply(CFG, Submitted(s, id), reply).rows == s1.rows;
    assert Apply(CFG, Submitted(s, id), reply) == s1;
    var t := s.(rows := s.rows[id := OpenRow(id)], calls := s.calls + [CallOpen(id, 5)], lock := Free);
    assert Apply(CFG, s1, confirm).rows == t.rows;
    assert Apply(CFG, s1, confirm) == t;
    RunPair(CFG, Submitted(s, id), reply, confirm);
  }

  lemma OpenSucceeds(s: State, listing: seq<Row>, id: Id) returns (steps: seq<Step>)
    requires Idle(s, listing) && Fresh(s, id)
    ensures Run(CFG, s, steps, s.(rows := s.rows[id := OpenRow(id)], calls := s.calls + [CallOpen(id, 5)]))
  {
    var quoting := s.(lock := OpenQuoting(7, 0, POLICY, SumStakes(listing)));
    OpenReachesQuote(s, listing);
    var submit := Opens(SubmitOpen(Ok(QUOTE), id, 0));
    assert StakeLimit(POLICY, SumStakes(listing), QUOTE) == 5;
    assert Apply(CFG, quoting, submit) == Submitted(s, id);
    OpenConfirms(s, id);
    var rest := [Opens(ReplyOpen(Ok(OpenAnswer(Some(id), [])), 0)), Opens(ConfirmOpen(Ok(RunningTruth(id)), 0))];
    var t := s.(rows := s.rows[id := OpenRow(id)], calls := s.calls + [CallOpen(id, 5)]);
    RunStep(CFG, quoting, submit, rest, t);
    RunConcat(CFG, s, [Opens(BeginOpen(7)), Opens(CheckOpen(Ok(()), listing))], quoting, [submit] + rest, t);
    steps := [Opens(BeginOpen(7)), Opens(CheckOpen(Ok(()), listing))] + ([submit] + rest);
  }

  // ---------------------------------------------------------------- the run

  const START := State(map[], map[], POLICY, Free, FRESH_MEMORY, [])
  const ONE := START.(rows := map[10 := OpenRow(10)], calls := [CallOpen(10, 5)])
  const BOTH := map[10 := OpenRow(10), 11 := OpenRow(11)]
  const OPENS := [CallOpen(10, 5), CallOpen(11, 5)]
  const TWO := START.(rows := BOTH, calls := OPENS)

  /** Two sessions, 10 and 11, are opened from an empty store. */
  lemma OpenBoth() returns (steps: seq<Step>)
    ensures Run(CFG, START, steps, TWO)
  {
    var first := OpenSucceeds(START, [], 10);
    assert START.rows[10 := OpenRow(10)] == ONE.rows && START.calls + [CallOpen(10, 5)] == ONE.calls;
    OneIsIdle();
    var second := OpenSucceeds(ONE, [OpenRow(10)], 11);
    assert ONE.rows[11 := OpenRow(11)] == BOTH && ONE.calls + [CallOpen(11, 5)] == OPENS;
    RunConcat(CFG, START, first, ONE, second, TWO);
    steps := first + second;
  }

  lemma OneIsIdle()
    ensures Idle(ONE, [OpenRow(10)]) && Fresh(ONE, 11)
  {
    var listing := [OpenRow(10)];
    assert listing[0].id == 10 && listing[1..] == [];
    assert SumStakes(listing) == 5 + SumStakes([]) && CountModel(listing, 7) == 1 + CountModel([], 7);
  }

  /** A borrower listed both sessions and is verifying 10. */
  const BORROWED := TWO.(
    mem := Memory({10}, 1, false, map[3 := Verifying(7, false, OpenRow(10), [OpenRow(11)])], NoRestart))

  lemma BorrowBoth() returns (steps: seq<Step>)
    ensures Run(CFG, TWO, steps, BORROWED)
  {
    var listing := [OpenRow(10), OpenRow(11)];
    assert listing[0].id == 10 && listing[1].id == 11 && listing[1..] == [OpenRow(11)];
    assert IsListing(BOTH, listing);
    var begin, pass := Borrows(BeginAcquire(3, 7, false)), Borrows(PassAcquire(3, listing, false));
    var waiting := TWO.(mem := Memory({}, 1, false, map[3 := Waiting(7, false)], NoRestart));
    assert Apply(CFG, TWO, begin) == waiting;
    assert Apply(CFG, waiting, pass).mem == BORROWED.mem;
    assert Apply(CFG, waiting, pass) == BORROWED;
    RunPair(CFG, TWO, begin, pass);
    steps := [begin, pass];
  }

  const PENDING := OpenRow(11).(state := ClosePending, closeOp := Some(20))

  /** The same a little later: 11 was closed, and the chain has not mined that close yet. */
  const CLOSE_SENT := BORROWED.(rows := map[10 := OpenRow(10), 11 := PENDING], calls := OPENS + [CallClose(11, 20)])

  lemma CloseBehindBorrower() returns (steps: seq<Step>)
    ensures Run(CFG, BORROWED, steps, CLOSE_SENT)
  {
    var send := CloseIsSent(CFG, BORROWED, 11, RunningTruth(11), 20);
    var wait := CloseStaysPending(CFG, BORROWED, OpenRow(11), RunningTruth(11), 20);
    assert BORROWED.rows[11 := Pending(OpenRow(11), 20)] == CLOSE_SENT.rows;
    RunConcat(CFG, BORROWED, send, Sent(BORROWED, OpenRow(11), 20), wait, CLOSE_SENT);
    steps := send + wait;
  }

  /** The borrower lost its read of 10 and went on to its old copy of 11. */
  const NEXT := CLOSE_SENT.(
    rows := map[10 := MarkError(OpenRow(10).(state := Quarantined), 0), 11 := PENDING],
    mem := Memory({11}, 1, false, map[3 := Verifying(7, false, OpenRow(11), [])], NoRestart))

  /** It lost that read too: its copy replaced the pending close. */
  const FORGOTTEN := CLOSE_SENT.(
    rows := map[10 := MarkError(OpenRow(10).(state := Quarantined), 0), 11 := MarkError(OpenRow(11).(state := Quarantined), 0)],
    mem := Memory({}, 1, false, map[3 := Waiting(7, false)], NoRestart))

  const LOSE := Borrows(VerifyAcquire(3, LOST_READ, 0, false))

  lemma LoseFirst()
    ensures Enabled(CLOSE_SENT, LOSE) && Apply(CFG, CLOSE_SENT, LOSE) == NEXT && !Evidence(CFG, CLOSE_SENT, LOSE, 11)
  {
    var t := Apply(CFG, CLOSE_SENT, LOSE);
    assert [OpenRow(11)][1..] == [];
    assert t.rows == NEXT.rows && t.mem.active == {11} && t.mem == NEXT.mem;
  }

  lemma LoseSecond()
    ensures Enabled(NEXT, LOSE) && Apply(CFG, NEXT, LOSE) == FORGOTTEN && !Evidence(CFG, NEXT, LOSE, 11)
  {
    var t := Apply(CFG, NEXT, LOSE);
    assert t.rows == FORGOTTEN.rows;
    assert t.mem.active == {} && t.mem == FORGOTTEN.mem;
  }

  /** No evidence about the pending close of 11, and yet it is gone. */
  lemma PendingCloseForgotten()
    ensures Run(CFG, CLOSE_SENT, [LOSE, LOSE], FORGOTTEN) && Undecided(CFG, CLOSE_SENT, [LOSE, LOSE], 11)
    ensures CLOSE_SENT.rows[11].state.ClosePending? && FORGOTTEN.rows[11].state.Quarantined?
  {
    LoseFirst();
    LoseSecond();
    RunPair(CFG, CLOSE_SENT, LOSE, LOSE);
    assert [LOSE, LOSE][1..] == [LOSE] && [LOSE][1..] == [];
    assert Undecided(CFG, NEXT, [LOSE], 11);
  }

  /** From an empty store to the unanswered close. */
  lemma FirstCloseSent() returns (steps: seq<Step>)
    ensures Run(CFG, START, steps, CLOSE_SENT)
  {
    hide Run;
    var opening := OpenBoth();
    var borrowing := BorrowBoth();
    var closing := CloseBehindBorrower();
    RunConcat(CFG, TWO, borrowing, BORROWED, closing, CLOSE_SENT);
    RunConcat(CFG, START, opening, TWO, borrowing + closing, CLOSE_SENT);
    steps := opening + (borrowing + closing);
  }

  lemma ForgottenIsClosable()
    ensures Closable(CFG, FORGOTTEN, 11, RunningTruth(11)) && Fresh(FORGOTTEN, 21)
  {
  }

  /** So a reachable run closes session 11 twice although nothing was ever learnt about the first close. */
  lemma SecondCloseSent() returns (steps: seq<Step>, t: State)
    ensures Init(START) && Run(CFG, START, steps, t)
    ensures t.calls == OPENS + [CallClose(11, 20)] + [CallClose(11, 21)]
  {
    hide Run;
    hide Closable;
    var first := FirstCloseSent();
    PendingCloseForgotten();
    ForgottenIsClosable();
    var again := CloseIsSent(CFG, FORGOTTEN, 11, RunningTruth(11), 21);
    t := Sent(FORGOTTEN, FORGOTTEN.rows[11], 21);
    RunConcat(CFG, CLOSE_SENT, [LOSE, LOSE], FORGOTTEN, again, t);
    RunConcat(CFG, START, first, CLOSE_SENT, [LOSE, LOSE] + again, t);
    steps := first + ([LOSE, LOSE] + again);
  }
}
