/**
 `rebalance`: after a policy change, which open sessions stay.  Leased sessions come first, older ones before
 newer ones, and each stays if its model and provider are allowed and neither cap is reached yet.
 */
module Rebalancing {
  import opened SessionRows

  /** The sort key: leased rows first, then by age. */
  predicate Before(active: set<Id>, a: Row, b: Row) {
    if a.id in active then b.id in active ==> a.createdAt <= b.createdAt
    else b.id !in active && a.createdAt <= b.createdAt
  }

  /** What `sorted(store.sessions())` may return. */
  ghost predicate IsOrder(rows: map<Id, Row>, active: set<Id>, order: seq<Row>) {
    && IsListing(rows, order)
    && forall i, j :: 0 <= i < j < |order| ==> Before(active, order[i], order[j])
  }

  predicate Eligible(policy: Policy, row: Row) {
    row.model in policy.models && Permits(policy, row.provider)
  }

  /** Neither cap is reached by the rows kept so far. */
  predicate Room(policy: Policy, kept: seq<Row>, row: Row)
    requires row.model in policy.models
  {
    |kept| < policy.maxSessions && CountModel(kept, row.model) < policy.models[row.model]
  }

  /** The rows that the loop keeps, in order. */
  function Kept(order: seq<Row>, policy: Policy): seq<Row> {
    if order == [] then []
    else
      var row, kept := order[|order| - 1], Kept(order[..|order| - 1], policy);
      if row.state.Open? && Eligible(policy, row) && Room(policy, kept, row) then kept + [row] else kept
  }

  function Ids(rows: seq<Row>): set<Id> {
    set i | 0 <= i < |rows| :: rows[i].id
  }

  function OpenIds(order: seq<Row>): set<Id> {
    set i | 0 <= i < |order| && order[i].state.Open? :: order[i].id
  }

  function Dropped(order: seq<Row>, policy: Policy): set<Id> {
    OpenIds(order) - Ids(Kept(order, policy))
  }

  function DrainIds(rows: map<Id, Row>, ids: set<Id>): map<Id, Row> {
    map id | id in rows :: if id in ids && rows[id].state.Open? then rows[id].(state := Draining) else rows[id]
  }

  /** The store after the loop. */
  function Rebalanced(rows: map<Id, Row>, order: seq<Row>, policy: Policy): map<Id, Row> {
    DrainIds(rows, Dropped(order, policy))
  }

  // ---------------------------------------------------------------- what is kept

  lemma {:induction false} CountModelSnoc(rows: seq<Row>, row: Row, model: Id)
    ensures CountModel(rows + [row], model) == CountModel(rows, model) + (if row.model == model then 1 else 0)
  {
    if rows == [] {
      assert [] + [row] == [row];
    } else {
      assert (rows + [row])[1..] == rows[1..] + [row];
      CountModelSnoc(rows[1..], row, model);
    }
  }

  /** Kept rows are open, eligible rows of the order and within both caps. */
  ghost predicate KeptWithin(order: seq<Row>, policy: Policy, kept: seq<Row>) {
    && |kept| <= policy.maxSessions
    && (forall m :: m in policy.models ==> CountModel(kept, m) <= policy.models[m])
    && (forall i :: 0 <= i < |kept| ==> kept[i] in order && kept[i].state.Open? && Eligible(policy, kept[i]))
  }

  lemma {:induction false} KeptIsWithin(order: seq<Row>, policy: Policy)
    ensures KeptWithin(order, policy, Kept(order, policy))
    decreases |order|
  {
    if order != [] {
      var init, row := order[..|order| - 1], order[|order| - 1];
      KeptIsWithin(init, policy);
      var kept := Kept(init, policy);
      forall m ensures CountModel(kept + [row], m) == CountModel(kept, m) + (if row.model == m then 1 else 0) {
        CountModelSnoc(kept, row, m);
      }
    }
  }

  lemma {:induction false} KeptPrefix(order: seq<Row>, policy: Policy, n: nat)
    requires n <= |order|
    ensures Kept(order[..n], policy) <= Kept(order, policy)
    decreases |order|
  {
    if n == |order| {
      assert order[..n] == order;
    } else {
      var init := order[..|order| - 1];
      assert init[..n] == order[..n];
      KeptPrefix(init, policy, n);
    }
  }

  /** An eligible open row that finds room after the rows before it is kept. */
  lemma RoomIsKept(order: seq<Row>, policy: Policy, n: nat)
    requires n < |order| && order[n].state.Open? && Eligible(policy, order[n])
    requires Room(policy, Kept(order[..n], policy), order[n])
    ensures order[n].id in Ids(Kept(order, policy))
  {
    var upto, kept := order[..n + 1], Kept(order[..n], policy);
    KeptPrefix(order, policy, n + 1);
    assert upto[..n] == order[..n] && upto[n] == order[n];
    assert Kept(upto, policy) == kept + [order[n]];
    assert Kept(upto, policy)[|kept|] == order[n];
    IdAt(Kept(order, policy), |kept|);
  }

  // ---------------------------------------------------------------- counting rows of the store

  ghost predicate Distinct(rows: seq<Row>) {
    forall i, j :: 0 <= i < j < |rows| ==> rows[i].id != rows[j].id
  }

  function OfModel(rows: seq<Row>, model: Id): set<Id> {
    set i | 0 <= i < |rows| && rows[i].model == model :: rows[i].id
  }

  lemma IdsSnoc(rows: seq<Row>, row: Row, model: Id)
    ensures Ids(rows + [row]) == Ids(rows) + {row.id}
    ensures OfModel(rows + [row], model) == OfModel(rows, model) + (if row.model == model then {row.id} else {})
  {
    var all := rows + [row];
    assert all[|rows|] == row && forall i :: 0 <= i < |rows| ==> all[i] == rows[i];
    assert Ids(all) == Ids(rows) + {row.id};
    assert OfModel(all, model) == OfModel(rows, model) + (if row.model == model then {row.id} else {});
  }

  lemma {:induction false} DistinctCounts(rows: seq<Row>, model: Id)
    requires Distinct(rows)
    ensures |Ids(rows)| == |rows| && |OfModel(rows, model)| == CountModel(rows, model)
    decreases |rows|
  {
    if rows != [] {
      var init, row := rows[..|rows| - 1], rows[|rows| - 1];
      assert rows == init + [row];
      DistinctCounts(init, model);
      CountModelSnoc(init, row, model);
      IdsSnoc(init, row, model);
      assert row.id !in Ids(init) && row.id !in OfModel(init, model);
    }
  }

  lemma {:induction false} KeptDistinct(order: seq<Row>, policy: Policy)
    requires Distinct(order)
    ensures Distinct(Kept(order, policy))
    decreases |order|
  {
    if order != [] {
      var init := order[..|order| - 1];
      KeptDistinct(init, policy);
      KeptIsWithin(init, policy);
    }
  }

  /** The ids of open rows in a store. */
  function Opened(rows: map<Id, Row>): set<Id> {
    set id | id in rows && rows[id].state.Open?
  }

  function OpenedOf(rows: map<Id, Row>, model: Id): set<Id> {
    set id | id in rows && rows[id].state.Open? && rows[id].model == model
  }

  lemma IdAt(rows: seq<Row>, i: nat)
    requires i < |rows|
    ensures rows[i].id in Ids(rows)
  {
  }

  /** The open rows left in the store are exactly the kept ones. */
  lemma OpenedAreKept(rows: map<Id, Row>, active: set<Id>, order: seq<Row>, policy: Policy, model: Id)
    requires IsOrder(rows, active, order)
    ensures var rows', kept := Rebalanced(rows, order, policy), Kept(order, policy);
            && Opened(rows') == Ids(kept) && OpenedOf(rows', model) == OfModel(kept, model)
            && Distinct(kept)
            && (forall i :: 0 <= i < |kept| ==> kept[i].id in rows && rows[kept[i].id] == kept[i])
  {
    var rows', kept := Rebalanced(rows, order, policy), Kept(order, policy);
    KeptIsWithin(order, policy);
    KeptDistinct(order, policy);
    forall i | 0 <= i < |kept| ensures kept[i].id in rows && rows[kept[i].id] == kept[i] && kept[i].id in Opened(rows') {
      IdAt(kept, i);
    }
    forall id | id in Opened(rows') ensures id in Ids(kept) {
      assert Live(rows[id]);
      var i :| 0 <= i < |order| && order[i].id == id;
      assert id in OpenIds(order);
    }
  }

  /** One turn of the loop. */
  lemma OneTurn(order: seq<Row>, policy: Policy, n: nat)
    requires Distinct(order) && n < |order|
    ensures var row, kept, kept' := order[n], Kept(order[..n], policy), Kept(order[..n + 1], policy);
            var dropped, dropped' := Dropped(order[..n], policy), Dropped(order[..n + 1], policy);
            if row.state.Open? && Eligible(policy, row) && Room(policy, kept, row)
            then kept' == kept + [row] && dropped' == dropped
            else kept' == kept && dropped' == dropped + (if row.state.Open? then {row.id} else {})
  {
    var init, row := order[..n], order[n];
    var upto := order[..n + 1];
    assert upto == init + [row] && upto[..n] == init;
    KeptIsWithin(init, policy);
    var kept := Kept(init, policy);
    IdsSnoc(kept, row, 0);
    assert row.id !in Ids(kept);
    assert OpenIds(upto) == OpenIds(init) + (if row.state.Open? then {row.id} else {});
    assert row.id !in OpenIds(init);
  }

  lemma DrainOneMore(rows: map<Id, Row>, ids: set<Id>, row: Row)
    requires row.id in rows && rows[row.id] == row && row.state.Open?
    ensures DrainIds(rows, ids)[row.id := row.(state := Draining)] == DrainIds(rows, ids + {row.id})
  {
  }

  function Count(counts: map<Id, nat>, model: Id): nat {
    if model in counts then counts[model] else 0
  }

  /** The loop before row `n`: the counters describe the kept rows, and the dropped ones are draining. */
  ghost predicate LoopAt(before: map<Id, Row>, order: seq<Row>, policy: Policy, n: nat,
                         rows: map<Id, Row>, total: nat, counts: map<Id, nat>)
  {
    && n <= |order| && Distinct(order)
    && (forall i :: 0 <= i < |order| ==> order[i].id in before && before[order[i].id] == order[i])
    && total == |Kept(order[..n], policy)|
    && (forall m :: Count(counts, m) == CountModel(Kept(order[..n], policy), m))
    && rows == DrainIds(before, Dropped(order[..n], policy))
  }

  lemma LoopStarts(rows: map<Id, Row>, active: set<Id>, order: seq<Row>, policy: Policy)
    requires IsOrder(rows, active, order)
    ensures LoopAt(rows, order, policy, 0, rows, 0, map[])
  {
    assert rows == DrainIds(rows, {});
  }

  lemma LoopSkips(before: map<Id, Row>, order: seq<Row>, policy: Policy, n: nat,
                  rows: map<Id, Row>, total: nat, counts: map<Id, nat>)
    requires LoopAt(before, order, policy, n, rows, total, counts) && n < |order| && !order[n].state.Open?
    ensures LoopAt(before, order, policy, n + 1, rows, total, counts)
  {
    OneTurn(order, policy, n);
  }

  predicate Stays(policy: Policy, row: Row, total: nat, counts: map<Id, nat>) {
    && row.model in policy.models && Permits(policy, row.provider)
    && total < policy.maxSessions && Count(counts, row.model) < policy.models[row.model]
  }

  lemma LoopDrains(before: map<Id, Row>, order: seq<Row>, policy: Policy, n: nat,
                   rows: map<Id, Row>, total: nat, counts: map<Id, nat>)
    requires LoopAt(before, order, policy, n, rows, total, counts) && n < |order|
    requires order[n].state.Open? && !Stays(policy, order[n], total, counts)
    ensures LoopAt(before, order, policy, n + 1, rows[order[n].id := order[n].(state := Draining)], total, counts)
  {
    OneTurn(order, policy, n);
    DrainOneMore(before, Dropped(order[..n], policy), order[n]);
  }

  lemma LoopKeeps(before: map<Id, Row>, order: seq<Row>, policy: Policy, n: nat,
                  rows: map<Id, Row>, total: nat, counts: map<Id, nat>)
    requires LoopAt(before, order, policy, n, rows, total, counts) && n < |order|
    requires order[n].state.Open? && Stays(policy, order[n], total, counts)
    ensures LoopAt(before, order, policy, n + 1, rows, total + 1,
                   counts[order[n].model := Count(counts, order[n].model) + 1])
  {
    OneTurn(order, policy, n);
    var row, kept := order[n], Kept(order[..n], policy);
    forall m ensures CountModel(kept + [row], m) == CountModel(kept, m) + (if row.model == m then 1 else 0) {
      CountModelSnoc(kept, row, m);
    }
  }

  // ---------------------------------------------------------------- theorems

  /** After rebalancing, the open rows respect both caps and all of them are allowed. */
  lemma RespectsCaps(rows: map<Id, Row>, active: set<Id>, order: seq<Row>, policy: Policy, model: Id)
    requires IsOrder(rows, active, order) && model in policy.models
    ensures var rows' := Rebalanced(rows, order, policy);
            && |Opened(rows')| <= policy.maxSessions
            && |OpenedOf(rows', model)| <= policy.models[model]
            && forall id :: id in Opened(rows') ==>
                 && rows'[id].model in policy.models && rows'[id].provider !in policy.deny
                 && (policy.allowlistOnly ==> rows'[id].provider in policy.allow)
  {
    var rows', kept := Rebalanced(rows, order, policy), Kept(order, policy);
    OpenedAreKept(rows, active, order, policy, model);
    KeptIsWithin(order, policy);
    DistinctCounts(kept, model);
  }

  /** Leased rows among the open ones left. */
  function LeasedOf(rows: map<Id, Row>, active: set<Id>): set<Id> {
    set id | id in rows && rows[id].state.Open? && id in active
  }

  function LeasedOfModel(rows: map<Id, Row>, active: set<Id>, model: Id): set<Id> {
    set id | id in rows && rows[id].state.Open? && id in active && rows[id].model == model
  }

  /** An allowed row that was open and is now draining. */
  predicate Sacrificed(rows: map<Id, Row>, rows': map<Id, Row>, policy: Policy, id: Id) {
    && id in rows && id in rows' && rows[id].state.Open? && rows'[id].state.Draining?
    && rows[id].model in policy.models && rows[id].provider !in policy.deny
    && (policy.allowlistOnly ==> rows[id].provider in policy.allow)
  }

  lemma SacrificedAt(rows: map<Id, Row>, active: set<Id>, order: seq<Row>, policy: Policy, id: Id) returns (n: nat)
    requires IsOrder(rows, active, order) && Sacrificed(rows, Rebalanced(rows, order, policy), policy, id)
    ensures n < |order| && order[n] == rows[id] && !Room(policy, Kept(order[..n], policy), order[n])
  {
    assert Live(rows[id]);
    n :| n < |order| && order[n].id == id;
    if Room(policy, Kept(order[..n], policy), order[n]) {
      RoomIsKept(order, policy, n);
    }
  }

  /** Nothing allowed is drained needlessly: one of the two caps is used up by what stays. */
  lemma DrainsOnlyWhenFull(rows: map<Id, Row>, active: set<Id>, order: seq<Row>, policy: Policy, id: Id)
    requires IsOrder(rows, active, order) && Sacrificed(rows, Rebalanced(rows, order, policy), policy, id)
    ensures var rows' := Rebalanced(rows, order, policy);
            || |Opened(rows')| == policy.maxSessions
            || |OpenedOf(rows', rows[id].model)| == policy.models[rows[id].model]
  {
    var n := SacrificedAt(rows, active, order, policy, id);
    var model := rows[id].model;
    var before, kept := Kept(order[..n], policy), Kept(order, policy);
    KeptPrefix(order, policy, n);
    CountPrefix(before, kept, model);
    OpenedAreKept(rows, active, order, policy, model);
    KeptIsWithin(order, policy);
    DistinctCounts(kept, model);
  }

  lemma {:induction false} CountPrefix(before: seq<Row>, kept: seq<Row>, model: Id)
    requires before <= kept
    ensures |before| <= |kept| && CountModel(before, model) <= CountModel(kept, model)
  {
    if before != [] {
      CountPrefix(before[1..], kept[1..], model);
    }
  }

  lemma LeasedBefore(rows: map<Id, Row>, active: set<Id>, order: seq<Row>, policy: Policy, n: nat)
    requires IsOrder(rows, active, order) && n < |order| && order[n].id in active
    ensures var before := Kept(order[..n], policy);
            forall i :: 0 <= i < |before| ==> before[i].id in active
  {
    var before := Kept(order[..n], policy);
    KeptIsWithin(order[..n], policy);
    forall i | 0 <= i < |before| ensures before[i].id in active {
      var j :| 0 <= j < n && order[..n][j] == before[i];
      assert Before(active, order[j], order[n]);
    }
  }

  /** A leased, allowed row is drained only if leased rows alone use up one of the caps. */
  lemma LeasedDrainsOnlyWhenLeasedFill(rows: map<Id, Row>, active: set<Id>, order: seq<Row>, policy: Policy, id: Id)
    requires IsOrder(rows, active, order) && Sacrificed(rows, Rebalanced(rows, order, policy), policy, id) && id in active
    ensures var rows' := Rebalanced(rows, order, policy);
            || |LeasedOf(rows', active)| >= policy.maxSessions
            || |LeasedOfModel(rows', active, rows[id].model)| >= policy.models[rows[id].model]
  {
    var n := SacrificedAt(rows, active, order, policy, id);
    var model := rows[id].model;
    var rows' := Rebalanced(rows, order, policy);
    var before, kept := Kept(order[..n], policy), Kept(order, policy);
    KeptPrefix(order, policy, n);
    OpenedAreKept(rows, active, order, policy, model);
    LeasedBefore(rows, active, order, policy, n);
    forall i | 0 <= i < |before| ensures before[i] == kept[i] && before[i].id in LeasedOf(rows', active) {
      IdAt(kept, i);
    }
    DistinctCounts(before, model);
    Subsets(Ids(before), LeasedOf(rows', active));
    assert forall i :: 0 <= i < |before| ==> rows'[before[i].id] == before[i];
    Subsets(OfModel(before, model), LeasedOfModel(rows', active, model));
  }

  lemma KeptAt(order: seq<Row>, policy: Policy, k: nat)
    requires Distinct(order) && k < |order| && order[k].id in Ids(Kept(order, policy))
    ensures Eligible(policy, order[k]) && Room(policy, Kept(order[..k], policy), order[k])
  {
    hide Kept;
    OneTurn(order, policy, k);
    KeptLater(order, policy, k);
    KeptIdsBefore(order, policy, k);
  }

  /** What is kept of the rows from `k + 1` on has other ids than row `k`. */
  lemma {:induction false} KeptLater(order: seq<Row>, policy: Policy, k: nat)
    requires Distinct(order) && k < |order|
    ensures order[k].id in Ids(Kept(order, policy)) ==> order[k].id in Ids(Kept(order[..k + 1], policy))
    decreases |order|
  {
    if k + 1 == |order| {
      assert order[..k + 1] == order;
    } else {
      var init, row := order[..|order| - 1], order[|order| - 1];
      assert init[..k + 1] == order[..k + 1] && init[k] == order[k];
      KeptLater(init, policy, k);
      IdsSnoc(Kept(init, policy), row, 0);
    }
  }

  lemma KeptIdsBefore(order: seq<Row>, policy: Policy, k: nat)
    requires Distinct(order) && k < |order|
    ensures order[k].id !in Ids(Kept(order[..k], policy))
  {
    KeptIsWithin(order[..k], policy);
  }

  /**
   The order decides who stays: an allowed row is drained while another one of its model stays only if that one
   comes first, being leased or, with both leased or both free, at least as old.
   */
  lemma OlderStay(rows: map<Id, Row>, active: set<Id>, order: seq<Row>, policy: Policy, id: Id, other: Id)
    requires IsOrder(rows, active, order) && Sacrificed(rows, Rebalanced(rows, order, policy), policy, id)
    requires other in Opened(Rebalanced(rows, order, policy)) && other in rows && rows[other].model == rows[id].model
    ensures other in active || id !in active
    ensures (other in active <==> id in active) ==> rows[other].createdAt <= rows[id].createdAt
  {
    var n := SacrificedAt(rows, active, order, policy, id);
    var k := OpenedAt(rows, active, order, policy, other);
    hide Kept;
    hide Rebalanced;
    hide Distinct;
    if k > n {
      NoRoomLater(order, policy, n, k);
    } else if k < n {
      assert Before(active, order[k], order[n]);
    }
  }

  lemma OpenedAt(rows: map<Id, Row>, active: set<Id>, order: seq<Row>, policy: Policy, id: Id) returns (k: nat)
    requires IsOrder(rows, active, order) && id in Opened(Rebalanced(rows, order, policy)) && id in rows
    ensures k < |order| && order[k] == rows[id] && Eligible(policy, order[k])
    ensures Room(policy, Kept(order[..k], policy), order[k])
  {
    OpenedAreKept(rows, active, order, policy, 0);
    assert rows[id].state.Open? && Live(rows[id]);
    k :| 0 <= k < |order| && order[k].id == id;
    KeptAt(order, policy, k);
  }

  /** Where a row found no room, no later row of its model finds any. */
  lemma NoRoomLater(order: seq<Row>, policy: Policy, n: nat, k: nat)
    requires n < k < |order| && order[n].model == order[k].model && order[n].model in policy.models
    requires !Room(policy, Kept(order[..n], policy), order[n])
    ensures !Room(policy, Kept(order[..k], policy), order[k])
  {
    assert order[..k][..n] == order[..n];
    KeptPrefix(order[..k], policy, n);
    CountPrefix(Kept(order[..n], policy), Kept(order[..k], policy), order[n].model);
  }

  lemma {:induction false} Subsets(a: set<Id>, b: set<Id>)
    requires a <= b
    ensures |a| <= |b|
  {
    if a != {} {
      var x :| x in a;
      Subsets(a - {x}, b - {x});
    }
  }

  /** If all open rows are allowed and fit together, the loop keeps every one of them. */
  lemma {:induction false} FittingIsKept(order: seq<Row>, policy: Policy)
    requires forall i :: 0 <= i < |order| && order[i].state.Open? ==> Eligible(policy, order[i])
    requires |OpenRows(order)| <= policy.maxSessions
    requires forall m :: m in policy.models ==> CountModel(OpenRows(order), m) <= policy.models[m]
    ensures Kept(order, policy) == OpenRows(order)
    decreases |order|
  {
    if order != [] {
      var init, row := order[..|order| - 1], order[|order| - 1];
      CountPrefixes(OpenRows(init), OpenRows(order), policy);
      FittingIsKept(init, policy);
      if row.state.Open? {
        CountModelSnoc(OpenRows(init), row, row.model);
      }
    }
  }

  lemma CountPrefixes(before: seq<Row>, kept: seq<Row>, policy: Policy)
    requires before <= kept
    requires forall m :: m in policy.models ==> CountModel(kept, m) <= policy.models[m]
    ensures forall m :: m in policy.models ==> CountModel(before, m) <= policy.models[m]
  {
    forall m | m in policy.models ensures CountModel(before, m) <= policy.models[m] {
      CountPrefix(before, kept, m);
    }
  }

  function OpenRows(order: seq<Row>): seq<Row> {
    if order == [] then []
    else
      var rest := OpenRows(order[..|order| - 1]);
      if order[|order| - 1].state.Open? then rest + [order[|order| - 1]] else rest
  }

  lemma {:induction false} OpenRowsAre(order: seq<Row>)
    requires Distinct(order)
    ensures Ids(OpenRows(order)) == OpenIds(order) && Distinct(OpenRows(order))
    ensures forall i :: 0 <= i < |OpenRows(order)| ==> OpenRows(order)[i] in order && OpenRows(order)[i].state.Open?
    decreases |order|
  {
    if order != [] {
      var init, row := order[..|order| - 1], order[|order| - 1];
      OpenRowsAre(init);
      var rest := OpenRows(init);
      assert OpenIds(order) == OpenIds(init) + (if row.state.Open? then {row.id} else {});
      IdsSnoc(rest, row, 0);
    }
  }

  lemma OpenRowsCount(rows: map<Id, Row>, active: set<Id>, order: seq<Row>, model: Id)
    requires IsOrder(rows, active, order)
    ensures |OpenRows(order)| == |Opened(rows)| && CountModel(OpenRows(order), model) == |OpenedOf(rows, model)|
  {
    var opens := OpenRows(order);
    OpenRowsAre(order);
    DistinctCounts(opens, model);
    forall id | id in Opened(rows) ensures id in OpenIds(order) {
      assert Live(rows[id]);
    }
    assert OpenIds(order) == Opened(rows);
    forall id | id in OpenedOf(rows, model) ensures id in OfModel(opens, model) {
      assert id in Ids(opens);
      var i :| 0 <= i < |opens| && opens[i].id == id;
    }
    assert OfModel(opens, model) == OpenedOf(rows, model);
  }

  /** Rebalanced rows are allowed and fit together, in whatever order they are listed. */
  lemma RebalancedFit(rows: map<Id, Row>, active: set<Id>, order: seq<Row>, policy: Policy, order': seq<Row>)
    requires IsOrder(rows, active, order) && IsOrder(Rebalanced(rows, order, policy), active, order')
    ensures |OpenRows(order')| <= policy.maxSessions
    ensures forall m :: m in policy.models ==> CountModel(OpenRows(order'), m) <= policy.models[m]
  {
    hide OpenRows;
    hide Kept;
    var rows' := Rebalanced(rows, order, policy);
    hide Rebalanced;
    OpenedAreKept(rows, active, order, policy, 0);
    KeptIsWithin(order, policy);
    DistinctCounts(Kept(order, policy), 0);
    OpenRowsCount(rows', active, order', 0);
    forall m | m in policy.models ensures CountModel(OpenRows(order'), m) <= policy.models[m] {
      OpenRowsCount(rows', active, order', m);
      RespectsCaps(rows, active, order, policy, m);
    }
  }

  lemma RebalancedEligible(rows: map<Id, Row>, active: set<Id>, order: seq<Row>, policy: Policy, order': seq<Row>)
    requires IsOrder(rows, active, order) && IsOrder(Rebalanced(rows, order, policy), active, order')
    ensures forall i :: 0 <= i < |order'| && order'[i].state.Open? ==> Eligible(policy, order'[i])
  {
    hide Kept;
    var kept, rows' := Kept(order, policy), Rebalanced(rows, order, policy);
    hide Rebalanced;
    OpenedAreKept(rows, active, order, policy, 0);
    KeptIsWithin(order, policy);
    forall i | 0 <= i < |order'| && order'[i].state.Open? ensures Eligible(policy, order'[i]) {
      assert order'[i].id in Opened(rows');
      var k :| 0 <= k < |kept| && kept[k].id == order'[i].id;
      RebalancedKeepsOpen(rows, order, policy, kept[k].id);
    }
  }

  lemma RebalancedKeepsOpen(rows: map<Id, Row>, order: seq<Row>, policy: Policy, id: Id)
    requires id in rows && Rebalanced(rows, order, policy)[id].state.Open?
    ensures Rebalanced(rows, order, policy)[id] == rows[id]
  {
  }

  /** A run that keeps every open row changes nothing. */
  lemma NothingDropped(rows: map<Id, Row>, order: seq<Row>, policy: Policy)
    requires Distinct(order) && Kept(order, policy) == OpenRows(order)
    ensures Rebalanced(rows, order, policy) == rows
  {
    OpenRowsAre(order);
    assert Dropped(order, policy) == {};
  }

  /** A second run changes nothing, whatever the order of equally old rows. */
  lemma Idempotent(rows: map<Id, Row>, active: set<Id>, order: seq<Row>, policy: Policy, order': seq<Row>)
    requires IsOrder(rows, active, order) && IsOrder(Rebalanced(rows, order, policy), active, order')
    ensures var rows' := Rebalanced(rows, order, policy);
            Rebalanced(rows', order', policy) == rows'
  {
    hide Kept;
    hide OpenRows;
    RebalancedFit(rows, active, order, policy, order');
    RebalancedEligible(rows, active, order, policy, order');
    FittingIsKept(order', policy);
    var rows' := Rebalanced(rows, order, policy);
    hide Rebalanced;
    NothingDropped(rows', order', policy);
  }
}
