/**
  The call-graph walk behind the error reference: which functions an entry point
  can reach, and which entry points can therefore surface which error.
 */
module CallGraph {

  type Name = string
  type Variant = string

  /** What the scanner found in one function: the names it calls, in order, and the
      error variants it raises. */
  datatype Function = Function(calls: seq<Name>, raises: seq<Variant>)

  type Program = map<Name, Function>

  type Graph = map<Name, set<Name>>

  // ----- Reachability -----

  predicate Edge(g: Graph, a: Name, b: Name) { a in g && b in g[a] }

  predicate Path(g: Graph, p: seq<Name>) { forall i :: 0 <= i < |p| - 1 ==> Edge(g, p[i], p[i + 1]) }

  ghost predicate ConnectedBy(g: Graph, a: Name, b: Name, p: seq<Name>) {
    p != [] && p[0] == a && p[|p| - 1] == b && Path(g, p)
  }

  /** A chain of one or more calls from `a` to `b`. */
  ghost predicate Calls(g: Graph, a: Name, b: Name) { exists p :: |p| >= 2 && ConnectedBy(g, a, b, p) }

  /** A chain of zero or more calls. */
  ghost predicate Reaches(g: Graph, a: Name, b: Name) { exists p :: ConnectedBy(g, a, b, p) }

  lemma ReachesIsSelfOrCalls(g: Graph, a: Name, b: Name)
    ensures Reaches(g, a, b) <==> a == b || Calls(g, a, b)
  {
    if a == b { assert ConnectedBy(g, a, b, [a]); }
    if Reaches(g, a, b) && !Calls(g, a, b) {
      var p :| ConnectedBy(g, a, b, p);
      assert |p| < 2;
    }
  }

  lemma CallsExtends(g: Graph, a: Name, b: Name, c: Name)
    requires Reaches(g, a, b) && Edge(g, b, c)
    ensures Calls(g, a, c)
  {
    var p :| ConnectedBy(g, a, b, p);
    assert ConnectedBy(g, a, c, p + [c]);
  }

  /** A set closed under calls holds everything a chain from it arrives at. */
  lemma {:induction false} ClosedHoldsPath(g: Graph, entry: Name, seen: set<Name>, p: seq<Name>)
    requires |p| >= 2 && Path(g, p) && (p[0] == entry || p[0] in seen)
    requires forall x, y :: (x == entry || x in seen) && Edge(g, x, y) ==> y in seen
    ensures p[|p| - 1] in seen
  {
    assert Edge(g, p[0], p[1]);
    if |p| > 2 {
      forall i | 0 <= i < |p[1..]| - 1 ensures Edge(g, p[1..][i], p[1..][i + 1]) { assert Edge(g, p[i + 1], p[i + 2]); }
      ClosedHoldsPath(g, entry, seen, p[1..]);
    }
  }

  // ----- The walk -----

  /** Every name that is called somewhere. */
  function Called(g: Graph): set<Name> { set a <- g, b <- g[a] :: b }

  lemma Smaller(xs: set<Name>, ys: set<Name>)
    requires xs <= ys
    ensures |xs| <= |ys|
    ensures xs != ys ==> |xs| < |ys|
  {
    assert ys == xs + (ys - xs) && xs !! (ys - xs);
    assert |ys| == |xs| + |ys - xs|;
  }

  /** What is seen was reached, what is queued was seen, and the calls of everything
      seen but not queued are seen. */
  ghost predicate Explored(g: Graph, entry: Name, seen: set<Name>, queue: seq<Name>) {
    && seen <= Called(g)
    && (forall f <- seen :: Calls(g, entry, f))
    && (forall x <- queue :: x == entry || x in seen)
    && (forall x, y :: (x == entry || x in seen) && x !in queue && Edge(g, x, y) ==> y in seen)
  }

  /** The inner loop: callees not seen before are seen and queued. */
  method Visit(seen: set<Name>, callees: set<Name>) returns (seen': set<Name>, added: seq<Name>)
    ensures seen' == seen + callees
    ensures forall x :: x in added <==> x in callees && x !in seen
    ensures seen' == seen ==> added == []
  {
    seen', added := seen, [];
    var rest := callees;
    while rest != {}
      invariant rest <= callees
      invariant seen' == seen + (callees - rest)
      invariant forall x :: x in added <==> x in callees && x !in rest && x !in seen
      decreases |rest|
    {
      var callee :| callee in rest;
      rest := rest - {callee};
      if callee !in seen' {
        seen' := seen' + {callee};
        added := added + [callee];
      }
    }
    if seen' == seen && added != [] { assert added[0] in added; }
  }

  lemma VisitedNext(g: Graph, entry: Name, seen: set<Name>, current: Name, waiting: seq<Name>, added: seq<Name>)
    requires Explored(g, entry, seen, [current] + waiting) && current in g
    requires forall x :: x in added <==> x in g[current] && x !in seen
    ensures Explored(g, entry, seen + g[current], waiting + added)
  {
    assert current in [current] + waiting;
    forall f | f in g[current] ensures Calls(g, entry, f) && f in Called(g) {
      ReachesIsSelfOrCalls(g, entry, current);
      assert Edge(g, current, f);
      CallsExtends(g, entry, current, f);
    }
    forall x, y | (x == entry || x in seen + g[current]) && x !in waiting + added && Edge(g, x, y)
      ensures y in seen + g[current]
    {
      assert x == entry || x in seen;
      if x != current { assert x !in [current] + waiting; }
    }
  }

  lemma UnknownNext(g: Graph, entry: Name, seen: set<Name>, current: Name, waiting: seq<Name>)
    requires Explored(g, entry, seen, [current] + waiting) && current !in g
    ensures Explored(g, entry, seen, waiting)
  {
    forall x, y | (x == entry || x in seen) && x !in waiting && Edge(g, x, y) ensures y in seen {
      assert x !in [current] + waiting;
    }
    forall x | x in waiting ensures x == entry || x in seen { assert x in [current] + waiting; }
  }

  lemma AllExplored(g: Graph, entry: Name, seen: set<Name>)
    requires Explored(g, entry, seen, [])
    ensures forall f :: f in seen <==> Calls(g, entry, f)
  {
    forall f | Calls(g, entry, f) ensures f in seen {
      var p :| |p| >= 2 && ConnectedBy(g, entry, f, p);
      ClosedHoldsPath(g, entry, seen, p);
    }
  }

  /** The breadth-first walk from `entry`: it ends, cycles or not, with exactly the
      functions some chain of one or more calls leads to. */
  method ReachableFrom(g: Graph, entry: Name) returns (seen: set<Name>)
    ensures forall f :: f in seen <==> Calls(g, entry, f)
  {
    seen := {};
    var queue := [entry];
    while queue != []
      invariant Explored(g, entry, seen, queue)
      decreases |Called(g) - seen|, |queue|
    {
      var current, waiting := queue[0], queue[1..];
      assert queue == [current] + waiting;
      if current in g {
        var more, added := Visit(seen, g[current]);
        VisitedNext(g, entry, seen, current, waiting, added);
        Smaller(Called(g) - more, Called(g) - seen);
        seen, queue := more, waiting + added;
      } else {
        UnknownNext(g, entry, seen, current, waiting);
        queue := waiting;
      }
    }
    AllExplored(g, entry, seen);
  }

  // ----- The graph of a program -----

  /** `build_call_graph` keeps calls of known functions and drops those of a function to itself. */
  function CallGraphOf(p: Program): Graph {
    map f <- p :: set c <- p[f].calls | c in p && c != f
  }

  /** Every call of a known function, a function's calls of itself included. */
  function AllCalls(p: Program): Graph {
    map f <- p :: set c <- p[f].calls | c in p
  }

  /** A path without its immediate repetitions. */
  function Straightened(p: seq<Name>): (q: seq<Name>)
    requires p != []
    ensures q != []
  {
    if |p| == 1 then p
    else if p[0] == p[1] then Straightened(p[1..])
    else [p[0]] + Straightened(p[1..])
  }

  lemma {:induction false} StraightenedPath(p: Program, path: seq<Name>)
    requires path != [] && Path(AllCalls(p), path)
    ensures ConnectedBy(CallGraphOf(p), path[0], path[|path| - 1], Straightened(path))
  {
    if |path| > 1 {
      var rest := path[1..];
      forall i | 0 <= i < |rest| - 1 ensures Edge(AllCalls(p), rest[i], rest[i + 1]) {
        assert Edge(AllCalls(p), path[i + 1], path[i + 2]);
      }
      StraightenedPath(p, rest);
      if path[0] != path[1] {
        assert Edge(AllCalls(p), path[0], path[1]);
        Prepended(CallGraphOf(p), path[0], Straightened(rest));
      }
    }
  }

  lemma Prepended(g: Graph, a: Name, q: seq<Name>)
    requires q != [] && Path(g, q) && Edge(g, a, q[0])
    ensures Path(g, [a] + q)
  {
    forall i | 0 <= i < |q| ensures Edge(g, ([a] + q)[i], ([a] + q)[i + 1]) {
      if i > 0 { assert Edge(g, q[i - 1], q[i]); }
    }
  }

  /** Dropping a function's calls of itself loses no chain of calls. */
  lemma SelfCallsImmaterial(p: Program, a: Name, b: Name)
    ensures Reaches(CallGraphOf(p), a, b) <==> Reaches(AllCalls(p), a, b)
  {
    if Reaches(CallGraphOf(p), a, b) {
      var q :| ConnectedBy(CallGraphOf(p), a, b, q);
      forall i | 0 <= i < |q| - 1 ensures Edge(AllCalls(p), q[i], q[i + 1]) {
        assert Edge(CallGraphOf(p), q[i], q[i + 1]);
      }
      assert ConnectedBy(AllCalls(p), a, b, q);
    }
    if Reaches(AllCalls(p), a, b) {
      var q :| ConnectedBy(AllCalls(p), a, b, q);
      StraightenedPath(p, q);
    }
  }

  // ----- Which entry points surface an error -----

  /** `entry` surfaces `v`: some function that raises it is reached by zero or more calls. */
  ghost predicate Surfaces(p: Program, entry: Name, v: Variant) {
    exists f :: f in p && v in p[f].raises && Reaches(AllCalls(p), entry, f)
  }

  method RaisersByVariant(p: Program) returns (raisers: map<Variant, set<Name>>)
    ensures forall v :: v in raisers <==> exists f :: f in p && v in p[f].raises
    ensures forall v <- raisers, f :: f in raisers[v] <==> f in p && v in p[f].raises
  {
    raisers := map[];
    var rest := p.Keys;
    while rest != {}
      invariant rest <= p.Keys
      invariant forall v :: v in raisers <==> exists f :: f in p && f !in rest && v in p[f].raises
      invariant forall v <- raisers, f :: f in raisers[v] <==> f in p && f !in rest && v in p[f].raises
      decreases |rest|
    {
      var fn :| fn in rest;
      ghost var before := raisers;
      var raises := p[fn].raises;
      for i := 0 to |raises|
        invariant forall v :: v in raisers <==> v in before || v in raises[..i]
        invariant forall v <- raisers, f ::
                    f in raisers[v] <==> (v in before && f in before[v]) || (f == fn && v in raises[..i])
      {
        var v := raises[i];
        assert raises[..i + 1] == raises[..i] + [v];
        raisers := raisers[v := (if v in raisers then raisers[v] else {}) + {fn}];
      }
      assert raises[..|raises|] == raises;
      rest := rest - {fn};
    }
  }

  /** `analyse`: an entry point is listed for a variant exactly when it surfaces it. */
  method Analyse(p: Program, entries: set<Name>) returns (surfacing: map<Variant, set<Name>>)
    ensures forall v :: v in surfacing <==> exists f :: f in p && v in p[f].raises
    ensures forall v <- surfacing, e :: e in surfacing[v] <==> e in entries && Surfaces(p, e, v)
  {
    var g := CallGraphOf(p);
    var reachable: map<Name, set<Name>> := map[];
    var rest := entries;
    while rest != {}
      invariant rest <= entries && reachable.Keys == entries - rest
      invariant forall e <- reachable, f :: f in reachable[e] <==> Calls(g, e, f)
      decreases |rest|
    {
      var e :| e in rest;
      var seen := ReachableFrom(g, e);
      reachable := reachable[e := seen];
      rest := rest - {e};
    }
    var raisers := RaisersByVariant(p);
    surfacing := map v <- raisers :: set e <- reachable | e in raisers[v] || reachable[e] * raisers[v] != {};
    forall v, e | v in surfacing ensures e in surfacing[v] <==> e in entries && Surfaces(p, e, v) {
      if e in entries {
        forall f ensures f in raisers[v] && (e == f || f in reachable[e]) <==>
                         f in p && v in p[f].raises && Reaches(AllCalls(p), e, f) {
          ReachesIsSelfOrCalls(g, e, f);
          SelfCallsImmaterial(p, e, f);
        }
        Meets(e, reachable[e], raisers[v]);
      }
    }
  }

  lemma Meets(e: Name, callees: set<Name>, raisers: set<Name>)
    ensures e in raisers || callees * raisers != {} <==> exists f :: f in raisers && (e == f || f in callees)
  {
    if callees * raisers != {} {
      var f :| f in callees * raisers;
      assert f in raisers && f in callees;
    }
    if exists f :: f in raisers && (e == f || f in callees) {
      var f :| f in raisers && (e == f || f in callees);
      assert e in raisers || f in callees * raisers;
    }
  }
}
