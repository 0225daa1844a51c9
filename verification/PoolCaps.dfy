/**
 The pool caps at opening: how many live sessions the store may hold, in all and of each model.

 An open goes on only below both caps.  Under a constant policy and without adopted sessions the caps hold in
 every run, unless a borrower's old copy brings a row back that had ended meanwhile.
 */
module PoolCaps {
  import opened Options
  import opened SessionRows
  import opened Protocol
  import opened WalletSafety
  import opened LeasedModel
  import opened StaleBorrower
  import opened UncertainOutcome
  import Rebalancing

  /** Rows that have not ended. */
  function LiveIds(rows: map<Id, Row>): set<Id> {
    set id | id in rows && !rows[id].state.Closed? && !rows[id].state.Failed?
  }

  function LiveOf(rows: map<Id, Row>, model: Id): set<Id> {
    set id | id in LiveIds(rows) && rows[id].model == model
  }

  // ---------------------------------------------------------------- the store check

  lemma ListingCounts(rows: map<Id, Row>, listing: seq<Row>, model: Id)
    requires IsListing(rows, listing) && forall id :: id in rows ==> rows[id].id == id
    ensures |listing| == |LiveIds(rows)| && CountModel(listing, model) == |LiveOf(rows, model)|
  {
    Rebalancing.DistinctCounts(listing, model);
    assert Rebalancing.Ids(listing) == LiveIds(rows);
    assert Rebalancing.OfModel(listing, model) == LiveOf(rows, model);
  }

  /**
   For any policy: an open passes the store check if and only if identity and catalog answered, the model is
   enabled, both caps leave room for one more live row, and no wallet transaction is unresolved.
   */
  lemma ChecksCaps(s: State, checked: Reply<()>, listing: seq<Row>)
    requires Keyed(s) && s.lock.OpenChecking? && IsListing(s.rows, listing)
    ensures var OpenChecking(model, _, policy) := s.lock;
            OpenCheck(s, checked, listing).lock.OpenQuoting? <==>
              && checked.Ok? && model in policy.models
              && |LiveIds(s.rows)| < policy.maxSessions && |LiveOf(s.rows, model)| < policy.models[model]
              && ClearWallet(s, None)
  {
    var OpenChecking(model, _, policy) := s.lock;
    ListingCounts(s.rows, listing, model);
    if ClearWallet(s, None) {
      forall i | 0 <= i < |listing| ensures !listing[i].state.Opening? && !listing[i].state.OpenUnknown? {
        assert !RowUnresolved(s.rows[listing[i].id]);
      }
    }
  }

  // ---------------------------------------------------------------- which steps add a live row

  /** Live rows, and the row in the hands of the lock holder. */
  function Counted(s: State): set<Id> {
    LiveIds(s.rows) + (if Copy(s.lock).Some? then {Copy(s.lock).value.id} else {})
  }

  predicate Ended(rows: map<Id, Row>, id: Id) {
    id !in rows || rows[id].state.Closed? || rows[id].state.Failed?
  }

  /** A borrower writes back a row that ended after it was listed, or gives back a lease on a failed one. */
  ghost predicate Revives(cfg: Config, s: State, step: Step) {
    match step
    case Borrows(VerifyAcquire(task, read, _, _)) =>
      && task in s.mem.borrowers && s.mem.borrowers[task].Verifying?
      && var row := s.mem.borrowers[task].row;
         && Ended(s.rows, row.id)
         && ((read.Err? && !read.failure.code.Admission?) || (read.Ok? && !About(cfg, row, read.value)))
    case Borrows(InvalidateLease(task)) =>
      && task in s.mem.borrowers && s.mem.borrowers[task].Leased?
      && s.mem.borrowers[task].id in s.rows && s.rows[s.mem.borrowers[task].id].state.Failed?
    case _ => false
  }

  predicate Adds(step: Step) {
    (step.Opens? && step.o.SubmitOpen?) || (step.Reconciles? && step.r.AdoptSession?)
  }

  lemma OpenAddsNone(cfg: Config, s: State, step: OpenStep)
    requires CanOpen(s, step) && !step.SubmitOpen?
    ensures Counted(ApplyOpen(cfg, s, step)) <= Counted(s)
  {
  }

  lemma CloseAddsNone(cfg: Config, s: State, step: CloseStep)
    requires Keyed(s) && CanClose(s, step)
    ensures Counted(ApplyClose(cfg, s, step)) <= Counted(s)
  {
  }

  lemma TreasuryAddsNone(s: State, step: TreasuryStep)
    requires CanWithdraw(s, step)
    ensures Counted(ApplyTreasury(s, step)) <= Counted(s)
  {
  }

  lemma ReconcileAddsNone(cfg: Config, s: State, step: ReconcileStep)
    requires Keyed(s) && !step.AdoptSession?
    ensures Counted(ApplyReconcile(cfg, s, step)) <= Counted(s)
  {
  }

  lemma BorrowAddsNone(cfg: Config, s: State, step: BorrowStep)
    requires Keyed(s) && CanBorrow(s, step) && !Revives(cfg, s, Borrows(step))
    ensures Counted(ApplyBorrow(cfg, s, step)) <= Counted(s)
  {
    match step
    case PassAcquire(task, listing, giveUp) =>
      var Waiting(model, prewarm) := s.mem.borrowers[task];
      ScanFrame(s, task, model, prewarm, listing, giveUp);
    case VerifyAcquire(task, read, now, giveUp) => VerifyFrame(cfg, s, task, read, now, giveUp);
    case _ =>
  }

  lemma UpkeepAddsNone(s: State, step: UpkeepStep)
    requires Keyed(s)
    ensures Counted(ApplyUpkeep(s, step)) <= Counted(s)
  {
  }

  lemma RestartAddsNone(s: State, step: RestartStep)
    requires Keyed(s) && CanRestart(s, step)
    ensures Counted(ApplyRestart(s, step)) <= Counted(s)
  {
  }

  lemma AddsNone(cfg: Config, s: State, step: Step)
    requires Keyed(s) && Enabled(s, step) && !Adds(step) && !Revives(cfg, s, step)
    ensures Counted(Apply(cfg, s, step)) <= Counted(s)
  {
    match step
    case Opens(o) => OpenAddsNone(cfg, s, o);
    case Closes(c) => CloseAddsNone(cfg, s, c);
    case Withdraws(w) => TreasuryAddsNone(s, w);
    case Reconciles(r) => ReconcileAddsNone(cfg, s, r);
    case Borrows(b) => BorrowAddsNone(cfg, s, b);
    case Tends(u) => UpkeepAddsNone(s, u);
    case Restarts(x) => RestartAddsNone(s, x);
  }

  lemma WriteAddsOne(cfg: Config, s: State, task: Id, read: Reply<Truth>, now: int, giveUp: bool)
    requires Keyed(s) && CanBorrow(s, VerifyAcquire(task, read, now, giveUp))
    requires Revives(cfg, s, Borrows(VerifyAcquire(task, read, now, giveUp)))
    ensures var id := s.mem.borrowers[task].row.id;
            id !in LiveIds(s.rows)
            && LiveIds(AcquireVerify(cfg, s, task, read, now, giveUp).rows) == LiveIds(s.rows) + {id}
  {
    VerifyFrame(cfg, s, task, read, now, giveUp);
    hide Scan;
  }

  /** And such a revival does add one: the caps survive it exactly if there was room. */
  lemma RevivalAddsOne(cfg: Config, s: State, step: Step)
    requires Keyed(s) && Enabled(s, step) && Revives(cfg, s, step)
    ensures |LiveIds(Apply(cfg, s, step).rows)| == |LiveIds(s.rows)| + 1
  {
    match step
    case Borrows(VerifyAcquire(task, read, now, giveUp)) => WriteAddsOne(cfg, s, task, read, now, giveUp);
    case Borrows(InvalidateLease(task)) =>
      assert LiveIds(Apply(cfg, s, step).rows) == LiveIds(s.rows) + {s.mem.borrowers[task].id};
    case _ =>
  }

  // ---------------------------------------------------------------- the caps over a run

  function CountedOf(l: Labels, s: State, model: Id): set<Id> {
    set id | id in Counted(s) && l.of(id) == model
  }

  function CapOf(policy: Policy, model: Id): nat {
    if model in policy.models then policy.models[model] else 0
  }

  /** The caps of `policy`, with one place kept for an open that passed its check. */
  ghost predicate Within(l: Labels, s: State, policy: Policy) {
    && s.policy == policy
    && |Counted(s)| <= policy.maxSessions && (forall m :: |CountedOf(l, s, m)| <= CapOf(policy, m))
    && (s.lock.OpenChecking? ==> s.lock.policy == policy)
    && (s.lock.OpenQuoting? ==>
          && s.lock.policy == policy && |Counted(s)| < policy.maxSessions
          && |CountedOf(l, s, s.lock.model)| < CapOf(policy, s.lock.model))
  }

  lemma FewerCounted(l: Labels, s: State, t: State)
    requires Counted(t) <= Counted(s)
    ensures |Counted(t)| <= |Counted(s)| && forall m :: |CountedOf(l, t, m)| <= |CountedOf(l, s, m)|
  {
    Rebalancing.Subsets(Counted(t), Counted(s));
    forall m ensures |CountedOf(l, t, m)| <= |CountedOf(l, s, m)| {
      Rebalancing.Subsets(CountedOf(l, t, m), CountedOf(l, s, m));
    }
  }

  /** A task takes its policy along from the store. */
  ghost predicate PolicyTaken(s: State, t: State) {
    && (t.lock.OpenChecking? ==> t.lock == s.lock || t.lock.policy == s.policy)
    && (t.lock.OpenQuoting? ==> t.lock == s.lock)
  }

  lemma OpenTakes(cfg: Config, s: State, step: OpenStep)
    requires CanOpen(s, step) && !step.CheckOpen?
    ensures PolicyTaken(s, ApplyOpen(cfg, s, step))
  {
  }

  lemma LockFrame(cfg: Config, s: State, step: Step)
    requires Enabled(s, step) && !(step.Opens? && step.o.CheckOpen?)
    ensures PolicyTaken(s, Apply(cfg, s, step))
  {
    match step
    case Opens(o) => OpenTakes(cfg, s, o);
    case Borrows(b) => Leases.BorrowFrame(cfg, s, b);
    case _ =>
  }

  lemma CheckKeepsWithin(l: Labels, s: State, policy: Policy, checked: Reply<()>, listing: seq<Row>)
    requires Labelled(l, s) && Keyed(s) && Within(l, s, policy) && s.lock.OpenChecking? && IsListing(s.rows, listing)
    ensures Within(l, OpenCheck(s, checked, listing), policy)
  {
    ChecksCaps(s, checked, listing);
    var t := OpenCheck(s, checked, listing);
    FewerCounted(l, s, t);
    assert Counted(s) == LiveIds(s.rows);
    assert LiveOf(s.rows, s.lock.model) == CountedOf(l, s, s.lock.model);
  }

  lemma SubmitKeepsWithin(l: Labels, s: State, policy: Policy, quoted: Reply<Quote>, newId: Id, now: int)
    requires Within(l, s, policy) && s.lock.OpenQuoting? && l.of(newId) == s.lock.model
    ensures Within(l, OpenSubmit(s, quoted, newId, now), policy)
  {
    var t := OpenSubmit(s, quoted, newId, now);
    if t.lock.OpenSubmitted? {
      assert Counted(t) <= Counted(s) + {newId};
      Rebalancing.Subsets(Counted(t), Counted(s) + {newId});
      forall m ensures |CountedOf(l, t, m)| <= CapOf(policy, m) {
        var more := if m == s.lock.model then {newId} else {};
        Rebalancing.Subsets(CountedOf(l, t, m), CountedOf(l, s, m) + more);
      }
    } else {
      FewerCounted(l, s, t);
    }
  }

  lemma StepKeepsWithin(cfg: Config, l: Labels, s: State, policy: Policy, step: Step)
    requires Labelled(l, s) && Keyed(s) && Within(l, s, policy) && Enabled(s, step) && Respects(l, s, step)
    requires !(step.Reconciles? && step.r.AdoptSession?) && !Revives(cfg, s, step)
    requires Apply(cfg, s, step).policy == policy
    ensures Within(l, Apply(cfg, s, step), policy)
  {
    match step
    case Opens(CheckOpen(checked, listing)) => CheckKeepsWithin(l, s, policy, checked, listing);
    case Opens(SubmitOpen(quoted, newId, now)) => SubmitKeepsWithin(l, s, policy, quoted, newId, now);
    case _ =>
      AddsNone(cfg, s, step);
      LockFrame(cfg, s, step);
      FewerCounted(l, s, Apply(cfg, s, step));
  }

  // ---------------------------------------------------------------- ids stand for one model

  function OpenedIds(calls: seq<Call>): set<Id> {
    set i | 0 <= i < |calls| && calls[i].CallOpen? :: calls[i].id
  }

  ghost predicate Extends(l: Labels, models: map<Id, Id>) {
    forall id :: id in models ==> l.of(id) == models[id]
  }

  /** `models` names the model of every id in use, so every labelling that extends it fits. */
  ghost predicate Sound(s: State, models: map<Id, Id>, policy: Policy) {
    && WalletInv(s) && models.Keys <= OpenedIds(s.calls)
    && forall l :: Extends(l, models) ==> Labelled(l, s) && Within(l, s, policy)
  }

  /** Steps of the runs in question. */
  ghost predicate Steady(cfg: Config, s: State, step: Step) {
    && Enabled(s, step) && Apply(cfg, s, step).policy == s.policy
    && !(step.Reconciles? && step.r.AdoptSession?) && !Revives(cfg, s, step)
  }

  lemma CallsKept(cfg: Config, s: State, step: Step)
    requires Enabled(s, step)
    ensures OpenedIds(s.calls) <= OpenedIds(Apply(cfg, s, step).calls)
  {
    var t := Apply(cfg, s, step);
    AtMostOneCall(cfg, s, step);
    forall id | id in OpenedIds(s.calls) ensures id in OpenedIds(t.calls) {
      var i :| 0 <= i < |s.calls| && s.calls[i].CallOpen? && s.calls[i].id == id;
      assert t.calls[i] == s.calls[i];
    }
  }

  /** The models after a step: a submitted open adds its own. */
  ghost function NextModels(cfg: Config, s: State, models: map<Id, Id>, step: Step): map<Id, Id>
    requires Enabled(s, step)
  {
    if step.Opens? && step.o.SubmitOpen? && Apply(cfg, s, step).calls != s.calls
    then models[step.o.newId := s.lock.model] else models
  }

  lemma NextIsCalled(cfg: Config, s: State, models: map<Id, Id>, step: Step)
    requires Enabled(s, step) && models.Keys <= OpenedIds(s.calls)
    ensures NextModels(cfg, s, models, step).Keys <= OpenedIds(Apply(cfg, s, step).calls)
    ensures forall l :: Extends(l, NextModels(cfg, s, models, step)) ==> Extends(l, models)
  {
    CallsKept(cfg, s, step);
    if step.Opens? && step.o.SubmitOpen? {
      assert step.o.newId !in OpenedIds(s.calls);
      var t := Apply(cfg, s, step);
      if t.calls != s.calls {
        assert t.calls[|s.calls|] == CallOpen(step.o.newId, t.lock.row.stake);
      }
    }
  }

  /** A refused open adds no row, whatever id it would have had. */
  lemma RefusedOpen(l: Labels, s: State, policy: Policy, quoted: Reply<Quote>, newId: Id, now: int)
    requires s.lock.OpenQuoting? && Labelled(l, s) && Within(l, s, policy)
    requires OpenSubmit(s, quoted, newId, now).calls == s.calls
    ensures var t := OpenSubmit(s, quoted, newId, now); Labelled(l, t) && Within(l, t, policy)
  {
    var t := OpenSubmit(s, quoted, newId, now);
    assert |s.calls + [CallOpen(newId, 0)]| != |s.calls|;
    assert t == s.(lock := Free);
    FewerCounted(l, s, t);
  }

  lemma StepKeepsSound(cfg: Config, s: State, models: map<Id, Id>, policy: Policy, step: Step)
    requires Sound(s, models, policy) && Steady(cfg, s, step)
    ensures Sound(Apply(cfg, s, step), NextModels(cfg, s, models, step), policy)
  {
    var t, next := Apply(cfg, s, step), NextModels(cfg, s, models, step);
    StepKeepsWalletInv(cfg, s, step);
    NextIsCalled(cfg, s, models, step);
    forall l | Extends(l, next) ensures Labelled(l, t) && Within(l, t, policy) {
      OneLabel(cfg, l, s, models, policy, step);
    }
  }

  lemma OneLabel(cfg: Config, l: Labels, s: State, models: map<Id, Id>, policy: Policy, step: Step)
    requires Labelled(l, s) && Within(l, s, policy) && Keyed(s) && Steady(cfg, s, step)
    requires Extends(l, NextModels(cfg, s, models, step))
    ensures Labelled(l, Apply(cfg, s, step)) && Within(l, Apply(cfg, s, step), policy)
  {
    hide Labelled;
    hide Keyed;
    if step.Opens? && step.o.SubmitOpen? && Apply(cfg, s, step).calls == s.calls {
      RefusedOpen(l, s, policy, step.o.quoted, step.o.newId, step.o.now);
    } else {
      StepLabelled(cfg, l, s, step);
      StepKeepsWithin(cfg, l, s, policy, step);
    }
  }

  ghost predicate SteadyRun(cfg: Config, s: State, steps: seq<Step>)
    decreases |steps|
  {
    steps != [] ==> Steady(cfg, s, steps[0]) && SteadyRun(cfg, Apply(cfg, s, steps[0]), steps[1..])
  }

  lemma {:induction false} RunKeepsSound(cfg: Config, s: State, models: map<Id, Id>, policy: Policy, steps: seq<Step>, t: State)
    returns (models': map<Id, Id>)
    requires Sound(s, models, policy) && Run(cfg, s, steps, t) && SteadyRun(cfg, s, steps)
    ensures Sound(t, models', policy)
    decreases |steps|
  {
    hide Sound;
    hide NextModels;
    models' := models;
    if steps != [] {
      StepKeepsSound(cfg, s, models, policy, steps[0]);
      models' := RunKeepsSound(cfg, Apply(cfg, s, steps[0]), NextModels(cfg, s, models, steps[0]), policy, steps[1..], t);
    }
  }

  lemma StartIsSound(s: State)
    requires Init(s)
    ensures Sound(s, map[], s.policy)
  {
    forall l: Labels ensures Labelled(l, s) && Within(l, s, s.policy) {
      assert Counted(s) == {};
      assert forall m :: CountedOf(l, s, m) == {};
    }
  }

  /**
   Under a constant policy, without adopted sessions and without revivals, in every state of every run: no more
   live rows than `maxSessions`, of an enabled model no more than its cap, and of other models none.
   */
  lemma CapsHold(cfg: Config, init: State, steps: seq<Step>, s: State, model: Id)
    requires Init(init) && Run(cfg, init, steps, s) && SteadyRun(cfg, init, steps)
    ensures |LiveIds(s.rows)| <= init.policy.maxSessions
    ensures |LiveOf(s.rows, model)| <= if model in init.policy.models then init.policy.models[model] else 0
  {
    StartIsSound(init);
    var models := RunKeepsSound(cfg, init, map[], init.policy, steps, s);
    var l := Labels((id: Id) => if id in models then models[id] else 0);
    assert Extends(l, models);
    Rebalancing.Subsets(LiveIds(s.rows), Counted(s));
    Rebalancing.Subsets(LiveOf(s.rows, model), CountedOf(l, s, model));
  }

  // ---------------------------------------------------------------- a run with a revival

  const TEN_OVER := RunningTruth(10).(closedAt := 9)
  const TEN_CLOSED := OpenRow(10).(state := Closed)

  /** The chain shows session 10 as closed while a borrower still awaits its read of it. */
  const ENDED := BORROWED.(rows := map[10 := TEN_CLOSED, 11 := OpenRow(11)])

  lemma TenEnds()
    ensures Run(CFG, BORROWED, [Reconciles(FromTruth(OpenRow(10), Ok(TEN_OVER), Ok([]), 0))], ENDED)
  {
    var step := Reconciles(FromTruth(OpenRow(10), Ok(TEN_OVER), Ok([]), 0));
    assert Apply(CFG, BORROWED, step).rows == ENDED.rows;
    assert Run(CFG, ENDED, [step][1..], ENDED);
  }

  const TWELVE := NewRow(12, 7, QUOTE, 5, 0)
  const QUOTING := ENDED.(lock := OpenQuoting(7, 0, StaleBorrower.POLICY, 5))
  const FULL := ENDED.(rows := map[10 := TEN_CLOSED, 11 := OpenRow(11), 12 := TWELVE],
                       calls := OPENS + [CallOpen(12, 5)], lock := OpenSubmitted(7, 0, TWELVE))

  lemma CheckedAgain()
    ensures Run(CFG, ENDED, [Opens(BeginOpen(7)), Opens(CheckOpen(Ok(()), [OpenRow(11)]))], QUOTING)
  {
    var listing, begin := [OpenRow(11)], Opens(BeginOpen(7));
    var check := Opens(CheckOpen(Ok(()), listing));
    assert listing[0].id == 11 && listing[1..] == [];
    assert SumStakes(listing) == 5 + SumStakes([]) && CountModel(listing, 7) == 1 + CountModel([], 7);
    var s1 := ENDED.(lock := OpenChecking(7, 0, StaleBorrower.POLICY));
    assert Apply(CFG, ENDED, begin) == s1;
    assert IsListing(s1.rows, listing);
    assert Apply(CFG, s1, check) == QUOTING;
    RunPair(CFG, ENDED, begin, check);
  }

  /** The cap of two is used up again. */
  lemma ThirdOpened()
    ensures Run(CFG, QUOTING, [Opens(SubmitOpen(Ok(QUOTE), 12, 0))], FULL) && LiveOf(FULL.rows, 7) == {11, 12}
  {
    var submit := Opens(SubmitOpen(Ok(QUOTE), 12, 0));
    assert StakeLimit(StaleBorrower.POLICY, 5, QUOTE) == 5;
    assert Apply(CFG, QUOTING, submit).rows == FULL.rows;
    assert Apply(CFG, QUOTING, submit) == FULL;
    assert Run(CFG, FULL, [submit][1..], FULL);
  }

  const BACK := FULL.rows[10 := MarkError(OpenRow(10).(state := Quarantined), 0)]

  lemma BackRows()
    ensures LiveOf(BACK, 7) == {10, 11, 12}
  {
  }

  lemma TenReturns() returns (t: State)
    ensures Run(CFG, FULL, [LOSE], t) && t.rows == BACK && t.policy == START.policy
  {
    t := Apply(CFG, FULL, LOSE);
    VerifyFrame(CFG, FULL, 3, LOST_READ, 0, false);
    hide AcquireVerify;
    hide Scan;
    assert Run(CFG, t, [LOSE][1..], t);
  }

  /** From an empty store: three live sessions of a model whose cap is two, the first one back from the dead. */
  lemma CapExceeded() returns (steps: seq<Step>, t: State)
    ensures Init(START) && Run(CFG, START, steps, t)
    ensures t.policy == START.policy && 7 in t.policy.models && |LiveOf(t.rows, 7)| == 3 > t.policy.models[7]
  {
    hide Run;
    hide LiveOf;
    var opens := OpenBoth();
    var borrow := BorrowBoth();
    RunConcat(CFG, START, opens, TWO, borrow, BORROWED);
    TenEnds();
    var notice := [Reconciles(FromTruth(OpenRow(10), Ok(TEN_OVER), Ok([]), 0))];
    RunConcat(CFG, START, opens + borrow, BORROWED, notice, ENDED);
    CheckedAgain();
    var check := [Opens(BeginOpen(7)), Opens(CheckOpen(Ok(()), [OpenRow(11)]))];
    RunConcat(CFG, START, opens + borrow + notice, ENDED, check, QUOTING);
    ThirdOpened();
    var submit := [Opens(SubmitOpen(Ok(QUOTE), 12, 0))];
    RunConcat(CFG, START, opens + borrow + notice + check, QUOTING, submit, FULL);
    t := TenReturns();
    BackRows();
    RunConcat(CFG, START, opens + borrow + notice + check + submit, FULL, [LOSE], t);
    steps := opens + borrow + notice + check + submit + [LOSE];
  }
}
