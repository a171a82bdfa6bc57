/**
  The per-solver list of accepted intents and its position index. Removal swaps
  the last entry into the hole; the pair still behaves as one finite set per solver.
 */
module SolverIndex {
  import opened Sums

  type Address = nat
  type IntentId = nat

  datatype Index = Index(lists: map<Address, seq<IntentId>>, positions: map<(Address, IntentId), nat>) {
    function List(a: Address): seq<IntentId> { if a in lists then lists[a] else [] }

    /** The index points every entry at its own place and points nowhere else. */
    ghost predicate Valid() {
      && (forall a <- lists, p | 0 <= p < |lists[a]| ::
            (a, lists[a][p]) in positions && positions[(a, lists[a][p])] == p)
      && (forall k <- positions :: positions[k] < |List(k.0)| && List(k.0)[positions[k]] == k.1)
    }

    ghost function Members(a: Address): set<IntentId> { set id <- List(a) }
  }

  function Added(x: Index, a: Address, id: IntentId): Index {
    if (a, id) in x.positions then x else
    Index(x.lists[a := x.List(a) + [id]], x.positions[(a, id) := |x.List(a)|])
  }

  function Removed(x: Index, a: Address, id: IntentId): Index
    requires x.Valid()
  {
    if (a, id) !in x.positions || a !in x.lists then x else
    var list, pos := x.lists[a], x.positions[(a, id)];
    var last := |list| - 1;
    if pos != last then
      Index(x.lists[a := list[pos := list[last]][..last]], x.positions[(a, list[last]) := pos] - {(a, id)})
    else
      Index(x.lists[a := list[..last]], x.positions - {(a, id)})
  }

  lemma MemberIffIndexed(x: Index, a: Address, id: IntentId)
    requires x.Valid()
    ensures id in x.Members(a) <==> (a, id) in x.positions
  {
    if (a, id) in x.positions { assert x.List(a)[x.positions[(a, id)]] == id; }
  }

  /** The entries of valid indexes follow from which pairs they index. */
  lemma MembersFollow(x: Index, y: Index, a: Address, id: IntentId, b: Address, v: IntentId)
    requires x.Valid() && y.Valid()
    ensures y.positions.Keys == x.positions.Keys + {(a, id)} ==>
              (v in y.Members(b) <==> v in x.Members(b) || (b == a && v == id))
    ensures y.positions.Keys == x.positions.Keys - {(a, id)} ==>
              (v in y.Members(b) <==> v in x.Members(b) && !(b == a && v == id))
  {
    MemberIffIndexed(x, b, v);
    MemberIffIndexed(y, b, v);
  }

  lemma AppendedValid(x: Index, a: Address, id: IntentId)
    requires x.Valid() && (a, id) !in x.positions
    ensures Added(x, a, id).Valid()
    ensures Added(x, a, id).positions.Keys == x.positions.Keys + {(a, id)}
  {
    var y := Added(x, a, id);
    forall b, p | b in y.lists && 0 <= p < |y.lists[b]|
      ensures (b, y.lists[b][p]) in y.positions && y.positions[(b, y.lists[b][p])] == p
    {
      if b != a || p < |x.List(a)| { assert y.lists[b][p] == x.lists[b][p]; }
    }
    forall k | k in y.positions ensures y.positions[k] < |y.List(k.0)| && y.List(k.0)[y.positions[k]] == k.1 {
      if k != (a, id) { assert x.List(k.0)[x.positions[k]] == k.1; }
    }
  }

  lemma AddedIs(x: Index, a: Address, id: IntentId)
    requires x.Valid()
    ensures Added(x, a, id).Valid()
    ensures forall b :: Added(x, a, id).Members(b) == x.Members(b) + (if b == a then {id} else {})
  {
    var y := Added(x, a, id);
    if (a, id) in x.positions {
      assert x.positions.Keys == x.positions.Keys + {(a, id)};
    } else {
      AppendedValid(x, a, id);
    }
    forall b, v ensures v in y.Members(b) <==> v in x.Members(b) || (b == a && v == id) {
      MembersFollow(x, y, a, id, b, v);
    }
  }

  lemma SwappedValid(x: Index, a: Address, id: IntentId)
    requires x.Valid() && (a, id) in x.positions && a in x.lists
    ensures Removed(x, a, id).Valid()
    ensures Removed(x, a, id).positions.Keys == x.positions.Keys - {(a, id)}
  {
    var y, list, pos := Removed(x, a, id), x.lists[a], x.positions[(a, id)];
    var last := |list| - 1;
    assert x.List(a) == list;
    forall p | 0 <= p < last ensures y.lists[a][p] == list[if p == pos then last else p] {}
    forall b, p | b in y.lists && 0 <= p < |y.lists[b]|
      ensures (b, y.lists[b][p]) in y.positions && y.positions[(b, y.lists[b][p])] == p
    {
      if b == a {
        assert (a, list[if p == pos then last else p]) in x.positions;
      } else {
        assert y.lists[b] == x.lists[b];
      }
    }
    forall k | k in y.positions ensures y.positions[k] < |y.List(k.0)| && y.List(k.0)[y.positions[k]] == k.1 {
      assert x.List(k.0)[x.positions[k]] == k.1;
    }
  }

  lemma RemovedIs(x: Index, a: Address, id: IntentId)
    requires x.Valid()
    ensures Removed(x, a, id).Valid()
    ensures forall b :: Removed(x, a, id).Members(b) == x.Members(b) - (if b == a then {id} else {})
  {
    var y := Removed(x, a, id);
    if (a, id) in x.positions && a in x.lists {
      SwappedValid(x, a, id);
    } else {
      assert x.positions.Keys == x.positions.Keys - {(a, id)};
    }
    forall b, v ensures v in y.Members(b) <==> v in x.Members(b) && !(b == a && v == id) {
      MembersFollow(x, y, a, id, b, v);
    }
  }

  lemma ValidNoRepeats(x: Index, a: Address)
    requires x.Valid()
    ensures NoRepeats(x.List(a))
  {
    forall i, j | 0 <= i < j < |x.List(a)| ensures x.List(a)[i] != x.List(a)[j] {
      assert x.positions[(a, x.List(a)[i])] == i;
    }
  }

  // ----- Runs -----

  datatype Step = Add(a: Address, id: IntentId) | Remove(a: Address, id: IntentId)

  function Run(steps: seq<Step>): (x: Index)
    ensures x.Valid()
  {
    if steps == [] then Index(map[], map[]) else
    var x := Run(steps[..|steps| - 1]);
    match steps[|steps| - 1]
    case Add(a, id) => AddedIs(x, a, id); Added(x, a, id)
    case Remove(a, id) => RemovedIs(x, a, id); Removed(x, a, id)
  }

  /** The finite set the steps build, one membership at a time. */
  function Set(steps: seq<Step>, a: Address): set<IntentId> {
    if steps == [] then {} else
    var before := Set(steps[..|steps| - 1], a);
    match steps[|steps| - 1]
    case Add(b, id) => if b == a then before + {id} else before
    case Remove(b, id) => if b == a then before - {id} else before
  }

  /** After any steps the list is the set they build, without repeats, and the
      index gives exactly the place of each member. */
  lemma {:induction false} RefinesSet(steps: seq<Step>, a: Address)
    ensures Run(steps).Members(a) == Set(steps, a)
    ensures NoRepeats(Run(steps).List(a))
    ensures forall id, p: nat ::
              ((a, id) in Run(steps).positions && Run(steps).positions[(a, id)] == p)
                <==> (p < |Run(steps).List(a)| && Run(steps).List(a)[p] == id)
  {
    ValidNoRepeats(Run(steps), a);
    if steps != [] {
      var front, x := steps[..|steps| - 1], Run(steps[..|steps| - 1]);
      RefinesSet(front, a);
      match steps[|steps| - 1] {
        case Add(b, id) => AddedIs(x, b, id);
        case Remove(b, id) => RemovedIs(x, b, id);
      }
    }
  }

  // ----- The stored form -----

  class Store {
    var lists: map<Address, seq<IntentId>>
    var positions: map<(Address, IntentId), nat>

    ghost function View(): Index
      reads this
    {
      Index(lists, positions)
    }

    constructor ()
      ensures View() == Index(map[], map[])
    {
      lists, positions := map[], map[];
    }

    method AddIntent(a: Address, id: IntentId)
      modifies this
      ensures View() == Added(old(View()), a, id)
    {
      if (a, id) in positions { return; }
      var list := if a in lists then lists[a] else [];
      var pos := |list|;
      lists := lists[a := list + [id]];
      positions := positions[(a, id) := pos];
    }

    method RemoveIntent(a: Address, id: IntentId)
      requires View().Valid()
      modifies this
      ensures View() == Removed(old(View()), a, id)
    {
      if (a, id) !in positions || a !in lists { return; }
      var pos, list := positions[(a, id)], lists[a];
      var last := |list| - 1;
      assert View().List(a) == list;
      if pos != last {
        var tail := list[last];
        list := list[pos := tail];
        positions := positions[(a, tail) := pos];
      }
      lists := lists[a := list[..last]];
      positions := positions - {(a, id)};
    }
  }
}
