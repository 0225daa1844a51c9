/**
 The bound on JSON payloads: an explicit stack of pending values with their depth, against a recursive
 definition of acceptable trees.
 */
module JsonTree {
  /** Text as code points. */
  type Text = seq<nat>

  datatype Json =
    | Null
    | Bool(b: bool)
    | Integer(n: int)
    | Float(finite: bool)
    | Str(text: Text)
    | Arr(items: seq<Json>)
    | Obj(members: seq<Member>)

  datatype Member = Member(key: Text, value: Json)

  const MAX_DEPTH := 64

  /** UTF-8 encodes every code point but an unpaired surrogate. */
  predicate Encodable(text: Text) {
    forall i :: 0 <= i < |text| ==> !(0xD800 <= text[i] <= 0xDFFF)
  }

  /** The recursive definition: values and keys alike are one level below what holds them. */
  predicate Accepts(t: Json, depth: nat) {
    && depth <= MAX_DEPTH
    && match t
       case Float(finite) => finite
       case Str(text) => Encodable(text)
       case Arr(items) => forall i :: 0 <= i < |items| ==> Accepts(items[i], depth + 1)
       case Obj(members) =>
         forall i :: 0 <= i < |members| ==>
           depth + 1 <= MAX_DEPTH && Encodable(members[i].key) && Accepts(members[i].value, depth + 1)
       case _ => true
  }

  /** Keys and values of an object in the order in which `items()` gives them. */
  function Flatten(members: seq<Member>): seq<Json> {
    if members == [] then [] else [Str(members[0].key), members[0].value] + Flatten(members[1..])
  }

  function Children(t: Json): seq<Json> {
    match t
    case Arr(items) => items
    case Obj(members) => Flatten(members)
    case _ => []
  }

  predicate LeafOk(t: Json) {
    match t
    case Float(finite) => finite
    case Str(text) => Encodable(text)
    case _ => true
  }

  lemma {:induction false} FlattenAccepts(members: seq<Member>, depth: nat)
    ensures (forall i :: 0 <= i < |Flatten(members)| ==> Accepts(Flatten(members)[i], depth)) <==>
            (forall i :: 0 <= i < |members| ==>
               depth <= MAX_DEPTH && Encodable(members[i].key) && Accepts(members[i].value, depth))
  {
    if members != [] {
      var all, rest := Flatten(members), Flatten(members[1..]);
      FlattenAccepts(members[1..], depth);
      assert all[0] == Str(members[0].key) && all[1] == members[0].value;
      assert forall i :: 0 <= i < |rest| ==> all[i + 2] == rest[i];
      assert forall i :: 2 <= i < |all| ==> all[i] == rest[i - 2];
      assert forall i :: 1 <= i < |members| ==> members[i] == members[1..][i - 1];
    }
  }

  lemma ObjAccepts(members: seq<Member>, depth: nat)
    ensures Accepts(Obj(members), depth) <==>
            depth <= MAX_DEPTH && forall i :: 0 <= i < |Flatten(members)| ==> Accepts(Flatten(members)[i], depth + 1)
  {
    FlattenAccepts(members, depth + 1);
    assert Accepts(Obj(members), depth) <==>
      depth <= MAX_DEPTH && forall i :: 0 <= i < |members| ==>
        depth + 1 <= MAX_DEPTH && Encodable(members[i].key) && Accepts(members[i].value, depth + 1);
  }

  lemma AcceptsChildren(t: Json, depth: nat)
    ensures Accepts(t, depth) <==>
            && depth <= MAX_DEPTH && LeafOk(t)
            && (forall i :: 0 <= i < |Children(t)| ==> Accepts(Children(t)[i], depth + 1))
  {
    if t.Obj? {
      ObjAccepts(t.members, depth);
      assert t == Obj(t.members) && Children(t) == Flatten(t.members);
    } else if t.Arr? {
      assert Children(t) == t.items;
    } else {
      assert Children(t) == [];
    }
  }

  // ---------------------------------------------------------------- termination

  function Size(t: Json): nat
    decreases t, 1
  {
    match t
    case Arr(items) => 1 + Sizes(items)
    case Obj(members) => 1 + MemberSizes(members)
    case _ => 1
  }

  function Sizes(items: seq<Json>): nat
    decreases items, 0
  {
    if items == [] then 0 else Size(items[0]) + Sizes(items[1..])
  }

  function MemberSizes(members: seq<Member>): nat
    decreases members, 0
  {
    if members == [] then 0 else 1 + Size(members[0].value) + MemberSizes(members[1..])
  }

  datatype Pending = Pending(item: Json, depth: nat)

  function PendingSize(pending: seq<Pending>): nat {
    if pending == [] then 0 else PendingSize(pending[..|pending| - 1]) + Size(pending[|pending| - 1].item)
  }

  function At(items: seq<Json>, depth: nat): seq<Pending> {
    seq(|items|, i requires 0 <= i < |items| => Pending(items[i], depth))
  }

  lemma {:induction false} SizesOfFlatten(members: seq<Member>)
    ensures Sizes(Flatten(members)) == MemberSizes(members)
  {
    if members != [] {
      var all, rest := Flatten(members), Flatten(members[1..]);
      SizesOfFlatten(members[1..]);
      assert all[1..] == [members[0].value] + rest && all[1..][1..] == rest;
    }
  }

  lemma ChildrenSmaller(t: Json)
    ensures Sizes(Children(t)) < Size(t)
  {
    if t.Obj? {
      SizesOfFlatten(t.members);
    }
  }

  lemma {:induction false} SizesLast(items: seq<Json>)
    requires items != []
    ensures Sizes(items) == Sizes(items[..|items| - 1]) + Size(items[|items| - 1])
  {
    if |items| > 1 {
      SizesLast(items[1..]);
      assert items[1..][..|items| - 2] == items[..|items| - 1][1..];
    }
  }

  lemma {:induction false} PushSize(pending: seq<Pending>, items: seq<Json>, depth: nat)
    ensures PendingSize(pending + At(items, depth)) == PendingSize(pending) + Sizes(items)
    decreases |items|
  {
    if items == [] {
      assert pending + At(items, depth) == pending;
    } else {
      var init := items[..|items| - 1];
      var all := pending + At(items, depth);
      assert all[..|all| - 1] == pending + At(init, depth);
      PushSize(pending, init, depth);
      SizesLast(items);
    }
  }

  // ---------------------------------------------------------------- the traversal

  ghost predicate AllAccepted(pending: seq<Pending>) {
    forall i :: 0 <= i < |pending| ==> Accepts(pending[i].item, pending[i].depth)
  }

  lemma AllAcceptedConcat(init: seq<Pending>, items: seq<Json>, depth: nat)
    ensures AllAccepted(init + At(items, depth)) <==>
            AllAccepted(init) && forall i :: 0 <= i < |items| ==> Accepts(items[i], depth)
  {
    var all := init + At(items, depth);
    assert forall i :: 0 <= i < |init| ==> all[i] == init[i];
    assert forall i :: 0 <= i < |items| ==> all[|init| + i] == Pending(items[i], depth);
    assert forall i :: |init| <= i < |all| ==> all[i] == Pending(items[i - |init|], depth);
  }

  function Popped(pending: seq<Pending>): seq<Pending>
    requires pending != []
  {
    var top := pending[|pending| - 1];
    pending[..|pending| - 1] + At(Children(top.item), top.depth + 1)
  }

  /** Replacing the top of the stack by its children keeps what remains to be decided. */
  lemma PopPush(pending: seq<Pending>)
    requires pending != []
    ensures var top := pending[|pending| - 1];
            AllAccepted(pending) <==> top.depth <= MAX_DEPTH && LeafOk(top.item) && AllAccepted(Popped(pending))
  {
    var top, init := pending[|pending| - 1], pending[..|pending| - 1];
    AcceptsChildren(top.item, top.depth);
    AllAcceptedConcat(init, Children(top.item), top.depth + 1);
    assert AllAccepted(pending) <==> AllAccepted(init) && Accepts(top.item, top.depth);
  }

  lemma PopShrinks(pending: seq<Pending>)
    requires pending != []
    ensures PendingSize(Popped(pending)) < PendingSize(pending)
  {
    var top := pending[|pending| - 1];
    ChildrenSmaller(top.item);
    PushSize(pending[..|pending| - 1], Children(top.item), top.depth + 1);
  }

  /** Terminates on every tree and accepts exactly what the recursive definition accepts. */
  method ValidJsonTree(value: Json) returns (ok: bool)
    ensures ok <==> Accepts(value, 0)
  {
    var pending := [Pending(value, 0)];
    while pending != []
      invariant Accepts(value, 0) <==> AllAccepted(pending)
      decreases PendingSize(pending)
    {
      PopPush(pending);
      PopShrinks(pending);
      var Pending(item, depth) := pending[|pending| - 1];
      if depth > MAX_DEPTH || !LeafOk(item) {
        return false;
      }
      pending := pending[..|pending| - 1] + At(Children(item), depth + 1);
    }
    return true;
  }

  // ---------------------------------------------------------------- depth and leaves apart

  function Max(x: nat, y: nat): nat {
    if x < y then y else x
  }

  /** Nesting depth; an empty list or object is no deeper than a scalar. */
  function Depth(t: Json): nat
    decreases t, 1
  {
    match t
    case Arr(items) => Deepest(items)
    case Obj(members) => DeepestMember(members)
    case _ => 0
  }

  function Deepest(items: seq<Json>): nat
    decreases items, 0
  {
    if items == [] then 0 else Max(1 + Depth(items[0]), Deepest(items[1..]))
  }

  function DeepestMember(members: seq<Member>): nat
    decreases members, 0
  {
    if members == [] then 0 else Max(1 + Depth(members[0].value), DeepestMember(members[1..]))
  }

  /** All scalars and keys of the tree are acceptable, at whatever depth. */
  predicate Clean(t: Json) {
    match t
    case Arr(items) => forall i :: 0 <= i < |items| ==> Clean(items[i])
    case Obj(members) => forall i :: 0 <= i < |members| ==> Encodable(members[i].key) && Clean(members[i].value)
    case _ => LeafOk(t)
  }

  lemma {:induction false} DeepestItems(items: seq<Json>, bound: nat)
    ensures Deepest(items) <= bound <==> forall i :: 0 <= i < |items| ==> 1 + Depth(items[i]) <= bound
    decreases |items|
  {
    if items != [] {
      DeepestItems(items[1..], bound);
      assert forall i :: 1 <= i < |items| ==> items[i] == items[1..][i - 1];
    }
  }

  lemma {:induction false} DeepestMembers(members: seq<Member>, bound: nat)
    ensures DeepestMember(members) <= bound <==> forall i :: 0 <= i < |members| ==> 1 + Depth(members[i].value) <= bound
    decreases |members|
  {
    if members != [] {
      DeepestMembers(members[1..], bound);
      assert forall i :: 1 <= i < |members| ==> members[i] == members[1..][i - 1];
    }
  }

  /** A tree is accepted exactly if it is at most 64 deep and all its scalars and keys are clean. */
  lemma {:induction false} AcceptsIff(t: Json, depth: nat)
    ensures Accepts(t, depth) <==> depth + Depth(t) <= MAX_DEPTH && Clean(t)
    decreases t
  {
    match t {
      case Arr(items) =>
        forall i | 0 <= i < |items|
          ensures Accepts(items[i], depth + 1) <==> depth + 1 + Depth(items[i]) <= MAX_DEPTH && Clean(items[i])
        {
          AcceptsIff(items[i], depth + 1);
        }
        if depth <= MAX_DEPTH {
          DeepestItems(items, MAX_DEPTH - depth);
        }
      case Obj(members) =>
        forall i | 0 <= i < |members|
          ensures Accepts(members[i].value, depth + 1) <==>
                  depth + 1 + Depth(members[i].value) <= MAX_DEPTH && Clean(members[i].value)
        {
          AcceptsIff(members[i].value, depth + 1);
        }
        if depth <= MAX_DEPTH {
          DeepestMembers(members, MAX_DEPTH - depth);
        }
      case _ =>
    }
  }
}
