/**
 Three runs from an empty store, an unused node and an empty wallet that bring the exposure to 16 under a budget
 of 10, one for each missing precaution.
 */
module OverrunRuns {
  import opened Options
  import opened SessionRows
  import opened Protocol
  import opened NodeJournal
  import opened Exposure
  import opened JournalEvidence
  import opened Identity
  import opened GatewayAndNode
  import opened ExposureOverrun

  const POLICY := Policy(false, 0, 4, map[7 := 2], false, {}, {}, 100, 10, 0, 0)
  const CFG := Config(1, 60, 60)
  const START := State(map[], map[], POLICY, Free, FRESH_MEMORY, [])

  /** The first open may stake 6, the second finds the whole budget free. */
  const SMALL := Quote(8, 9, 6, 6, 0, 0, 0)
  const LARGE := Quote(8, 9, 1, 100, 0, 0, 0)

  const ROW := NewRow(5, 7, SMALL, 6, 0)

  /** Gateway and chain after the first open was submitted. */
  const SUBMITTED := World(
    State(map[5 := ROW], map[], POLICY, OpenSubmitted(7, 0, ROW), FRESH_MEMORY, [CallOpen(5, 6)]),
    Chain(map[], map[5 := 6], 0, 0), None)

  lemma FirstAdmitted()
    ensures Settled(Begun(START, 0, 0)) && Admits(Begun(START, 0, 0), 7, [], SMALL, 5) && LimitFor(START, [], SMALL) == 6
  {
  }

  lemma FirstOrdered()
    requires LimitFor(START, [], SMALL) == 6
    ensures Ordered(Begun(START, 0, 0), 7, [], SMALL, 5) == Begun(START, 0, 0).(w := SUBMITTED)
  {
    var w := Ordered(Begun(START, 0, 0), 7, [], SMALL, 5).w;
    assert w.gw.rows == SUBMITTED.gw.rows && w.gw.calls == SUBMITTED.gw.calls;
  }

  lemma FirstSubmitted() returns (steps: seq<JointStep>)
    ensures JointRun(CFG, CAREFUL, Begun(START, 0, 0), steps, Begun(START, 0, 0).(w := SUBMITTED))
  {
    hide JointCan;
    hide Bury;
    hide Admits;
    hide Ordered;
    FirstAdmitted();
    FirstOrdered();
    steps := OneMoreOpen(CFG, CAREFUL, Begun(START, 0, 0), 7, [], SMALL, 5);
  }

  const PROGRESS := Progress(StageSubmitting(OpenTx), false, 0, None, [FIRST])

  /** The node served the first open up to its broadcast. */
  const SENT := Node(map[5 := Written(PROGRESS)], map[5 := Job(OpenTx, true, true, None, PROGRESS)],
                     {(5, FIRST)}, map[5 := OpenTx])

  lemma NodeSends()
    ensures NodeRun(SERVING, OneOpen(FIRST, 0), SENT)
  {
    var steps := OneOpen(FIRST, 0);
    var n1 := NodeApply(SERVING, steps[0]);
    assert n1.jobs[5].memory == BEGUN.(stage := StageSubmitting(OpenTx));
    assert [] + [FIRST] == [FIRST];
    assert NodeApply(n1, steps[1]).jobs[5].memory == PROGRESS;
    var n := RunThree(SERVING, steps);
    assert n.files == SENT.files && n.jobs == SENT.jobs;
  }

  lemma NodeBegins(j: Joint)
    requires j == Begun(START, 0, 0).(w := SUBMITTED)
    ensures JointCan(CFG, CAREFUL, j, Serve(Begin(5, OpenTx, true, true, Stored)))
    ensures var j' := JointApply(CFG, CAREFUL, j, Serve(Begin(5, OpenTx, true, true, Stored)));
            j'.w == SUBMITTED && j'.n == SERVING && j'.mined == map[] && j'.ids == Ids({}, {}, {})
  {
    var call := Begin(5, OpenTx, true, true, Stored);
    assert NodeApply(NEW_NODE, call) == SERVING;
    BuryNothing(Served(j, call));
  }

  /** Gateway, node and chain right after the broadcast. */
  lemma FirstSent() returns (steps: seq<JointStep>, j: Joint)
    ensures JointRun(CFG, CAREFUL, Begun(START, 0, 0), steps, j)
    ensures j.w == SUBMITTED && j.n == SENT && j.mined == map[] && (5, PROGRESS) in j.seen && j.ids == Ids({}, {}, {})
  {
    hide JointCan;
    hide Bury;
    var j0 := Begun(START, 0, 0);
    var order := FirstSubmitted();
    var j1 := j0.(w := SUBMITTED);
    var begin := Serve(Begin(5, OpenTx, true, true, Stored));
    NodeBegins(j1);
    JointSnoc(CFG, CAREFUL, j0, order, j1, begin);
    var j2 := JointApply(CFG, CAREFUL, j1, begin);
    NodeSends();
    var serve;
    serve, j := ServeAll(CFG, CAREFUL, j2, OneOpen(FIRST, 0), SENT);
    JointConcat(CFG, CAREFUL, j0, order + [begin], j2, serve, j);
    steps := order + [begin] + serve;
    assert (5, PROGRESS) in Contents(SENT.files);
  }

  lemma SoundSoFar(steps: seq<JointStep>, j: Joint)
    requires JointRun(CFG, CAREFUL, Begun(START, 0, 0), steps, j)
    ensures JointInv(j)
  {
    BegunIsSound(START, 0, 0);
    JointRunKeeps(CFG, Begun(START, 0, 0), steps, j);
  }

  // ---------------------------------------------------------------- the confirming read is lost

  /** The first open landed under chain id 50. */
  const OPENED := ROW.(chainId := Some(50), transactions := [FIRST])

  const CONFIRMING := World(
    SUBMITTED.gw.(rows := map[5 := OPENED], lock := OpenConfirming(7, 0, OPENED)),
    Chain(map[5 := OnChain(50, 6, false)], map[], 0, 0), None)

  const NAMED := Ids({(5, 50)}, {}, {})
  const CARRIED := Ids({(5, 50)}, {(5, 50)}, {})

  const NAME := Serve(Name(5, 50, Stored))
  const REPLY := Act(Opens(ReplyOpen(Ok(OpenAnswer(Some(50), [FIRST])), 0)))

  lemma FirstNamed(j: Joint)
    requires j.w.chain == CONFIRMING.chain && j.n == SENT && j.ids == Ids({}, {}, {})
    ensures JointCan(CFG, CAREFUL, j, NAME)
    ensures var j' := JointApply(CFG, CAREFUL, j, NAME);
            j'.w == j.w && j'.ids == NAMED && j'.n.files.Keys == {5}
  {
    BuryNothing(Served(j, NAME.call));
    assert {} + {(5, 50)} == NAMED.named;
  }

  lemma FirstReplies(j: Joint)
    requires j.w == SUBMITTED.(chain := CONFIRMING.chain) && j.ids == NAMED
    ensures JointCan(CFG, CAREFUL, j, REPLY) && JointApply(CFG, CAREFUL, j, REPLY) == j.(w := CONFIRMING, ids := CARRIED)
  {
    var t := Apply(CFG, j.w.gw, REPLY.step);
    assert t.rows == CONFIRMING.gw.rows;
    PairOf(t.rows, 5);
    assert Grown({}, t) == {(5, 50)};
    assert Acted(CFG, j, REPLY.step) == j.(w := CONFIRMING, ids := CARRIED);
    BuryNothing(j.(w := CONFIRMING, ids := CARRIED));
  }

  lemma FirstConfirming() returns (steps: seq<JointStep>, j: Joint)
    ensures JointRun(CFG, CAREFUL, Begun(START, 0, 0), steps, j)
    ensures j.w == CONFIRMING && j.n.files.Keys == {5} && j.ids == CARRIED
  {
    hide JointCan;
    hide Bury;
    var j0 := Begun(START, 0, 0);
    var sent, j1 := FirstSent();
    SentUndead(j1);
    Landing(CFG, CAREFUL, j1, 5, FIRST, 50);
    var land := Land(5, FIRST, 50, 6);
    JointSnoc(CFG, CAREFUL, j0, sent, j1, land);
    var j2 := Landed(j1, 5, FIRST, 50);
    assert j2.w.chain == CONFIRMING.chain;
    FirstNamed(j2);
    JointSnoc(CFG, CAREFUL, j0, sent + [land], j2, NAME);
    var j3 := JointApply(CFG, CAREFUL, j2, NAME);
    FirstReplies(j3);
    JointSnoc(CFG, CAREFUL, j0, sent + [land] + [NAME], j3, REPLY);
    j := j3.(w := CONFIRMING, ids := CARRIED);
    steps := sent + [land] + [NAME] + [REPLY];
  }

  lemma SentUndead(j: Joint)
    requires j.w == SUBMITTED && j.n == SENT
    ensures Undead(j)
  {
  }

  /** All GET failures of the node are labelled like this. */
  const LOST_GET := Failure(OtherCode, NotSubmitted, [])

  lemma SecondAdmitted(j: Joint)
    requires j.w == CONFIRMING && j.n.files.Keys == {5} && j.ids == CARRIED
    ensures LostRead(j, LOST_GET) && Admits(Unconfirmed(j, LOST_GET), 7, [], LARGE, 6) && LimitFor(j.w.gw, [], LARGE) == 10
  {
    var s := Unconfirmed(j, LOST_GET).w.gw;
    assert s.rows[5].state.Failed? && s.rows.Keys == {5};
    assert IsListing(s.rows, []);
  }

  lemma ConfirmingExposure()
    ensures ExposureOf(CONFIRMING.chain) == 6
  {
    TotalAdd(map[], 5, 6);
    assert LiveStakes(CONFIRMING.chain) == map[][5 := 6];
  }

  /** With the classification of the code, a reachable run brings the exposure to 16 under a budget of 10. */
  lemma LostConfirmationOverruns() returns (steps: seq<JointStep>, j: Joint)
    ensures Init(START) && JointRun(CFG, READS_UNTRUSTED, Begun(START, 0, 0), steps, j)
    ensures ExposureOf(j.w.chain) == 16 > j.w.gw.policy.maxTotalStake
  {
    hide JointCan;
    hide Bury;
    hide Admits;
    var first, j1 := FirstConfirming();
    SoundSoFar(first, j1);
    LessCareful(CFG, READS_UNTRUSTED, Begun(START, 0, 0), first, j1);
    SecondAdmitted(j1);
    ConfirmingExposure();
    var second;
    second, j := LostReadOverruns(CFG, j1, LOST_GET, 7, [], LARGE, 6);
    JointConcat(CFG, READS_UNTRUSTED, Begun(START, 0, 0), first, j1, second, j);
    steps := first + second;
  }

  // ---------------------------------------------------------------- the receipts come too early

  const UNCERTAIN := MarkError(ROW.(state := OpenUnknown), 0)
  const LISTED := UNCERTAIN.(transactions := [FIRST])

  const TIMEOUT := Act(Opens(ReplyOpen(Err(Failure(OtherCode, UnknownOutcome, [])), 0)))
  const READ_JOURNAL := Act(Reconciles(FromJournal(UNCERTAIN, Some(PROGRESS), 0)))

  const WAITING := SUBMITTED.(gw := SUBMITTED.gw.(rows := map[5 := UNCERTAIN], lock := Free))
  const LISTING := SUBMITTED.(gw := SUBMITTED.gw.(rows := map[5 := LISTED], lock := Free))

  ghost predicate Running(j: Joint) {
    j.n == SENT && (5, PROGRESS) in j.seen && FIRST in j.mined && !j.mined[FIRST] && j.ids == Ids({}, {}, {})
  }

  lemma NoAnswer()
    ensures GatewayStep(CFG, SUBMITTED, TIMEOUT.step) == WAITING && Apply(CFG, SUBMITTED.gw, TIMEOUT.step) == WAITING.gw
    ensures Pairs(WAITING.gw.rows) == {}
  {
    assert Apply(CFG, SUBMITTED.gw, TIMEOUT.step).rows == WAITING.gw.rows;
  }

  lemma FirstTimesOut(j: Joint)
    requires j.w == SUBMITTED && Running(j)
    ensures JointCan(CFG, CAREFUL, j, TIMEOUT) && JointApply(CFG, CAREFUL, j, TIMEOUT) == j.(w := WAITING)
  {
    NoAnswer();
    hide GatewayStep;
    hide Pairs;
    ActedPlainly(CFG, j, TIMEOUT.step);
    BuryNothing(j.(w := WAITING));
  }

  lemma JournalIsRead(j: Joint)
    requires j.w == WAITING && Running(j)
    ensures JointCan(CFG, CAREFUL, j, READ_JOURNAL) && JointApply(CFG, CAREFUL, j, READ_JOURNAL) == j.(w := LISTING)
  {
    var t := Apply(CFG, j.w.gw, READ_JOURNAL.step);
    assert t.rows == LISTING.gw.rows;
    ActedPlainly(CFG, j, READ_JOURNAL.step);
    BuryNothing(j.(w := LISTING));
  }

  lemma FirstReverts(j: Joint)
    requires j.w == SUBMITTED && j.n == SENT && j.mined == map[]
    ensures JointCan(CFG, CAREFUL, j, Revert(FIRST))
    ensures JointApply(CFG, CAREFUL, j, Revert(FIRST)) == j.(mined := map[FIRST := false])
  {
    assert (5, FIRST) in j.n.sent;
    BuryNothing(j.(mined := map[FIRST := false]));
  }

  lemma FirstKnown() returns (steps: seq<JointStep>, j: Joint)
    ensures JointRun(CFG, CAREFUL, Begun(START, 0, 0), steps, j) && j.w == LISTING && Running(j)
  {
    hide JointCan;
    hide Bury;
    var j0 := Begun(START, 0, 0);
    var sent, j1 := FirstSent();
    FirstReverts(j1);
    JointSnoc(CFG, CAREFUL, j0, sent, j1, Revert(FIRST));
    var j2 := j1.(mined := map[FIRST := false]);
    FirstTimesOut(j2);
    JointSnoc(CFG, CAREFUL, j0, sent + [Revert(FIRST)], j2, TIMEOUT);
    var j3 := j2.(w := WAITING);
    JournalIsRead(j3);
    JointSnoc(CFG, CAREFUL, j0, sent + [Revert(FIRST)] + [TIMEOUT], j3, READ_JOURNAL);
    j := j3.(w := LISTING);
    steps := sent + [Revert(FIRST)] + [TIMEOUT] + [READ_JOURNAL];
  }

  lemma SecondAdmittedAfterGivingUp(j: Joint)
    requires j.w == LISTING && Running(j)
    ensures StillRunning(j, 5) && Admits(GivenUp(j, 5), 7, [], LARGE, 6) && LimitFor(j.w.gw, [], LARGE) == 10
  {
    assert OpenTxs([FIRST]) == [FIRST] + OpenTxs([FIRST][1..]) == [FIRST];
    var s := GivenUp(j, 5).w.gw;
    assert s.rows[5].state.Failed? && s.rows.Keys == {5};
    assert IsListing(s.rows, []);
  }

  lemma WaitingExposure()
    ensures ExposureOf(LISTING.chain) == 6
  {
    TotalAdd(map[], 5, 6);
    assert LiveStakes(LISTING.chain) == map[] && map[][5 := 6] == LISTING.chain.mayOpen;
  }

  /** With failed reads counted as unknown, but receipts trusted before completion, the same happens. */
  lemma EarlyReceiptsOverrun() returns (steps: seq<JointStep>, j: Joint)
    ensures Init(START) && JointRun(CFG, RECEIPTS_TRUSTED, Begun(START, 0, 0), steps, j)
    ensures ExposureOf(j.w.chain) == 16 > j.w.gw.policy.maxTotalStake
  {
    hide JointCan;
    hide Bury;
    hide Admits;
    var first, j1 := FirstKnown();
    SoundSoFar(first, j1);
    LessCareful(CFG, RECEIPTS_TRUSTED, Begun(START, 0, 0), first, j1);
    SecondAdmittedAfterGivingUp(j1);
    WaitingExposure();
    var second;
    second, j := RunningJournalOverruns(CFG, j1, 5, 7, [], LARGE, 6);
    JointConcat(CFG, RECEIPTS_TRUSTED, Begun(START, 0, 0), first, j1, second, j);
    steps := first + second;
  }

  // ---------------------------------------------------------------- a bind to a closed session

  /** What the chain says about the first session, before and after it closed. */
  const RUNNING := Truth(1, 7, 8, 9, 50, 1000, 0, 6, 0)
  const OVER := RUNNING.(closedAt := 9)

  const OPEN_ROW := OPENED.(state := Open, endsAt := 1000)
  const ENDED_ROW := OPEN_ROW.(state := Closed)

  const CONFIRMED := CONFIRMING.(gw := CONFIRMING.gw.(rows := map[5 := OPEN_ROW], lock := Free))
  const ENDED := CONFIRMED.(chain := CONFIRMED.chain.(sessions := map[5 := OnChain(50, 6, true)]))
  const DONE := ENDED.(gw := ENDED.gw.(rows := map[5 := ENDED_ROW]))

  const CONFIRM := Act(Opens(ConfirmOpen(Ok(RUNNING), 0)))
  const END := Drift(SessionCloses(5, 0, 0))
  const NOTICE := Act(Reconciles(FromTruth(OPEN_ROW, Ok(OVER), Ok([]), 0)))

  lemma CarriedPairs(rows: map<Id, Row>)
    requires forall id :: id in rows && rows[id].chainId.Some? ==> id == 5 && rows[id].chainId == Some(50)
    ensures Pairs(rows) <= CARRIED.carried
  {
  }

  lemma FirstConfirms(j: Joint)
    requires j.w == CONFIRMING && j.ids == CARRIED
    ensures JointCan(CFG, CAREFUL, j, CONFIRM) && JointApply(CFG, CAREFUL, j, CONFIRM) == j.(w := CONFIRMED)
  {
    var t := Apply(CFG, j.w.gw, CONFIRM.step);
    assert Names(j.w.chain, 5, 50);
    assert t.rows == CONFIRMED.gw.rows;
    CarriedPairs(t.rows);
    ActedPlainly(CFG, j, CONFIRM.step);
    BuryNothing(j.(w := CONFIRMED));
  }

  lemma FirstEnds(j: Joint)
    requires j.w == CONFIRMED
    ensures JointCan(CFG, CAREFUL, j, END) && JointApply(CFG, CAREFUL, j, END) == j.(w := ENDED)
  {
    assert ChainApply(j.w, END.event).chain.sessions == ENDED.chain.sessions;
    BuryNothing(j.(w := ENDED));
  }

  lemma EndIsNoticed(j: Joint)
    requires j.w == ENDED && j.ids == CARRIED
    ensures JointCan(CFG, CAREFUL, j, NOTICE) && JointApply(CFG, CAREFUL, j, NOTICE) == j.(w := DONE)
  {
    var t := Apply(CFG, j.w.gw, NOTICE.step);
    assert Names(j.w.chain, 5, 50);
    assert t.rows == DONE.gw.rows;
    CarriedPairs(t.rows);
    ActedPlainly(CFG, j, NOTICE.step);
    BuryNothing(j.(w := DONE));
  }

  lemma FirstDone() returns (steps: seq<JointStep>, j: Joint)
    ensures JointRun(CFG, CAREFUL, Begun(START, 0, 0), steps, j)
    ensures j.w == DONE && j.n.files.Keys == {5} && j.ids == CARRIED
  {
    hide JointCan;
    hide Bury;
    var j0 := Begun(START, 0, 0);
    var first, j1 := FirstConfirming();
    FirstConfirms(j1);
    JointSnoc(CFG, CAREFUL, j0, first, j1, CONFIRM);
    var j2 := j1.(w := CONFIRMED);
    FirstEnds(j2);
    JointSnoc(CFG, CAREFUL, j0, first + [CONFIRM], j2, END);
    var j3 := j2.(w := ENDED);
    EndIsNoticed(j3);
    JointSnoc(CFG, CAREFUL, j0, first + [CONFIRM] + [END], j3, NOTICE);
    j := j3.(w := DONE);
    steps := first + [CONFIRM] + [END] + [NOTICE];
  }

  /** The second open, on the same bid; its answer is lost. */
  const ROW6 := NewRow(6, 7, SMALL, 6, 0)
  const UNSURE := MarkError(ROW6.(state := OpenUnknown), 0)

  const SECOND := World(
    DONE.gw.(rows := map[5 := ENDED_ROW, 6 := ROW6], lock := OpenSubmitted(7, 0, ROW6), calls := [CallOpen(5, 6), CallOpen(6, 6)]),
    DONE.chain.(mayOpen := map[6 := 6]), None)
  const PENDING := SECOND.(gw := SECOND.gw.(rows := map[5 := ENDED_ROW, 6 := UNSURE], lock := Free))

  lemma SecondOrdered(j: Joint)
    requires j.w == DONE && j.n.files.Keys == {5} && j.ids == CARRIED
    ensures Settled(j) && Admits(j, 7, [], SMALL, 6) && Ordered(j, 7, [], SMALL, 6) == j.(w := SECOND)
  {
    assert j.w.gw.rows[5].state.Closed? && j.w.gw.rows.Keys == {5};
    assert IsListing(j.w.gw.rows, []);
    assert LimitFor(j.w.gw, [], SMALL) == 6;
    CarriedPairs(j.w.gw.rows);
    var w := Ordered(j, 7, [], SMALL, 6).w;
    assert w.gw.rows == SECOND.gw.rows && w.gw.calls == SECOND.gw.calls && w.chain.mayOpen == SECOND.chain.mayOpen;
  }

  lemma NoSecondAnswer()
    ensures GatewayStep(CFG, SECOND, TIMEOUT.step) == PENDING && Apply(CFG, SECOND.gw, TIMEOUT.step) == PENDING.gw
    ensures Pairs(PENDING.gw.rows) <= CARRIED.carried
  {
    assert Apply(CFG, SECOND.gw, TIMEOUT.step).rows == PENDING.gw.rows;
    CarriedPairs(PENDING.gw.rows);
  }

  lemma SecondTimesOut(j: Joint)
    requires j.w == SECOND && j.ids == CARRIED && j.n.files.Keys == {5}
    ensures JointCan(CFG, CAREFUL, j, TIMEOUT) && JointApply(CFG, CAREFUL, j, TIMEOUT) == j.(w := PENDING)
  {
    NoSecondAnswer();
    hide GatewayStep;
    hide Pairs;
    ActedPlainly(CFG, j, TIMEOUT.step);
    BuryNothing(j.(w := PENDING));
  }

  lemma SecondPending() returns (steps: seq<JointStep>, j: Joint)
    ensures JointRun(CFG, CAREFUL, Begun(START, 0, 0), steps, j)
    ensures j.w == PENDING && j.n.files.Keys == {5} && j.ids == CARRIED
  {
    hide JointCan;
    hide Bury;
    hide Ordered;
    hide Admits;
    hide Settled;
    var j0 := Begun(START, 0, 0);
    var first, j1 := FirstDone();
    SecondOrdered(j1);
    var order := OneMoreOpen(CFG, CAREFUL, j1, 7, [], SMALL, 6);
    var j2 := j1.(w := SECOND);
    JointConcat(CFG, CAREFUL, j0, first, j1, order, j2);
    SecondTimesOut(j2);
    JointSnoc(CFG, CAREFUL, j0, first + order, j2, TIMEOUT);
    j := j2.(w := PENDING);
    steps := first + order + [TIMEOUT];
  }

  const BIND := Act(Reconciles(BindSession(6, 50, OVER)))

  /** The sweep or an operator binds the second opening to the first session, and every check passes. */
  lemma BindPasses(j: Joint)
    requires j.w == PENDING && j.ids == CARRIED
    ensures WrongBind(CFG, j, 6, 50, OVER)
  {
    assert Names(j.w.chain, 5, 50);
    assert forall x :: x in j.w.gw.rows && x != 6 ==> x == 5 && !Live(j.w.gw.rows[x]);
  }

  lemma PendingExposure()
    ensures ExposureOf(PENDING.chain) == 6
  {
    TotalAdd(map[], 6, 6);
    assert LiveStakes(PENDING.chain) == map[] && map[][6 := 6] == PENDING.chain.mayOpen;
  }

  const BOUND := Bind(CFG, PENDING.gw, 6, 50, OVER)

  lemma BoundStore()
    ensures BOUND.rows.Keys == {5, 6} && BOUND.rows[5].state.Closed? && BOUND.rows[6].state.Closed?
    ensures BOUND == PENDING.gw.(rows := BOUND.rows)
  {
    var j := Begun(START, 0, 0).(w := PENDING, ids := CARRIED);
    BindPasses(j);
  }

  const FORGOTTEN := World(BOUND, PENDING.chain, None)
  const CARRIED_AFTER := CARRIED.(carried := CARRIED.carried + Pairs(BOUND.rows))

  lemma SecondTied(j: Joint)
    requires JointInv(j) && j.w == PENDING && j.ids == CARRIED
    ensures JointCan(CFG, BINDS_TAKEN, j, BIND)
    ensures JointApply(CFG, BINDS_TAKEN, j, BIND) == j.(w := FORGOTTEN, ids := CARRIED_AFTER)
    ensures Settled(j.(w := FORGOTTEN, ids := CARRIED_AFTER)) && Linked(j.(w := FORGOTTEN, ids := CARRIED_AFTER))
  {
    BindPasses(j);
    hide JointCan;
    hide WrongBind;
    Binding(CFG, j, 6, 50, OVER);
    BoundIsSettled(CFG, j, 6, 50, OVER);
    JointStepKeepsLink(CFG, BINDS_TAKEN, j, BIND);
  }

  /** Bound to a closed session, the second opening is forgotten. */
  lemma SecondForgotten() returns (steps: seq<JointStep>, j: Joint)
    ensures JointRun(CFG, BINDS_TAKEN, Begun(START, 0, 0), steps, j) && Settled(j) && Linked(j)
    ensures j.w == FORGOTTEN && j.n.files.Keys == {5} && j.ids == CARRIED_AFTER
  {
    hide JointCan;
    hide Bury;
    hide Settled;
    hide Linked;
    var j0 := Begun(START, 0, 0);
    var first, j1 := SecondPending();
    SoundSoFar(first, j1);
    LessCareful(CFG, BINDS_TAKEN, j0, first, j1);
    SecondTied(j1);
    hide JointInv;
    JointSnoc(CFG, BINDS_TAKEN, j0, first, j1, BIND);
    j := j1.(w := FORGOTTEN, ids := CARRIED_AFTER);
    steps := first + [BIND];
  }

  lemma LandedStore(j: Joint, tx: Tx, chainId: Id)
    requires j.w == FORGOTTEN && j.n.files.Keys == {5, 6} && j.ids == CARRIED_AFTER && Unopened(j.w.chain, chainId)
    requires Undead(Landed(j, 6, tx, chainId))
    ensures Settled(Landed(j, 6, tx, chainId)) && OnceMore(Landed(j, 6, tx, chainId))
  {
    assert Landed(j, 6, tx, chainId).w.chain.mayOpen.Keys == {};
    hide Undead;
    BoundStore();
  }

  /** The second session runs, its row is closed, and the gateway is idle. */
  ghost predicate OnceMore(j: Joint) {
    && j.w.gw == BOUND && LiveOn(j.w.chain, 6) && j.w.chain.sessions.Keys == {5, 6} && j.w.chain.mayOpen == map[]
    && j.w.chain.hold == j.w.chain.available == 0 && j.n.files.Keys == {5, 6} && j.ids == CARRIED_AFTER
  }

  /** And then it lands. */
  lemma SecondLands() returns (steps: seq<JointStep>, j: Joint)
    ensures JointRun(CFG, BINDS_TAKEN, Begun(START, 0, 0), steps, j) && Settled(j)
    ensures OnceMore(j) && ExposureOf(j.w.chain) == 6
  {
    hide JointCan;
    hide Bury;
    hide Linked;
    hide OnceMore;
    var first, j1 := SecondForgotten();
    hide Settled;
    var late, j2, tx, chainId := LateLanding(CFG, BINDS_TAKEN, j1, 6);
    hide Undead;
    LandedStore(j2, tx, chainId);
    hide Landed;
    j := Landed(j2, 6, tx, chainId);
    JointConcat(CFG, BINDS_TAKEN, Begun(START, 0, 0), first, j1, late, j);
    steps := first + late;
    PendingExposure();
  }

  lemma ThirdAdmitted(j: Joint)
    requires OnceMore(j)
    ensures Admits(j, 7, [], LARGE, 8) && LimitFor(j.w.gw, [], LARGE) == 10
  {
    BoundStore();
    assert IsListing(j.w.gw.rows, []);
    assert forall c :: (8, c) !in j.ids.carried;
  }

  /** With both other precautions taken, a bind to another operation's closed session does the same. */
  lemma WrongBindOverrun() returns (steps: seq<JointStep>, j: Joint)
    ensures Init(START) && JointRun(CFG, BINDS_TAKEN, Begun(START, 0, 0), steps, j)
    ensures ExposureOf(j.w.chain) == 16 > j.w.gw.policy.maxTotalStake && LiveOn(j.w.chain, 6)
  {
    hide JointCan;
    hide Bury;
    hide Admits;
    hide Settled;
    var first, j1 := SecondLands();
    ThirdAdmitted(j1);
    BoundStore();
    var third := OneMoreOpen(CFG, BINDS_TAKEN, j1, 7, [], LARGE, 8);
    j := Ordered(j1, 7, [], LARGE, 8);
    JointConcat(CFG, BINDS_TAKEN, Begun(START, 0, 0), first, j1, third, j);
    steps := first + third;
  }
}
