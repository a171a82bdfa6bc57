/**
  Drawing, thresholds and counting: a panel is a duplicate-free choice among the
  eligible arbiters, any such choice can be drawn, and its scaled threshold lets
  one outcome through and never two.
 */
module PanelDraw {
  import opened Wrappers
  import opened SettlementMath
  import opened PanelModel
  import opened Sums

  // ----- Eligibility -----

  lemma {:induction false} EligibleIs(s: State, p: Parties, list: seq<Address>, amount: int)
    requires forall a <- list :: May(p, a) ==> a in s.arbiters
    ensures forall a :: a in Eligible(s, p, list, amount)
                        <==> a in list && May(p, a) && s.arbiters[a].bond >= amount
    ensures NoRepeats(list) ==> NoRepeats(Eligible(s, p, list, amount))
  {
    if list != [] {
      var front, last := list[..|list| - 1], list[|list| - 1];
      assert list == front + [last];
      EligibleIs(s, p, front, amount);
      if NoRepeats(list) {
        assert last !in front;
        assert last !in Eligible(s, p, front, amount);
      }
    }
  }

  // ----- The shuffle -----

  lemma SwapIs<T>(xs: seq<T>, i: nat, j: nat)
    requires i < |xs| && j < |xs|
    ensures forall x :: x in Swap(xs, i, j) <==> x in xs
    ensures NoRepeats(xs) ==> NoRepeats(Swap(xs, i, j))
  {
    var ys := Swap(xs, i, j);
    assert ys[i] == xs[j] && ys[j] == xs[i];
    forall x ensures x in ys <==> x in xs {
      if x in xs {
        var k :| 0 <= k < |xs| && xs[k] == x;
        assert ys[if k == i then j else if k == j then i else k] == x;
      }
    }
  }

  /** Every stage of the shuffle is a rearrangement of the eligible list. */
  lemma {:induction false} ShuffledIs(xs: seq<Address>, draw: nat -> nat, i: nat)
    requires i <= |xs|
    ensures forall x :: x in Shuffled(xs, draw, i) <==> x in xs
    ensures NoRepeats(xs) ==> NoRepeats(Shuffled(xs, draw, i))
  {
    if i > 0 {
      ShuffledIs(xs, draw, i - 1);
      SwapIs(Shuffled(xs, draw, i - 1), i - 1, Pick(draw, i - 1, |xs|));
    }
  }

  /** Later swaps leave the places already drawn alone. */
  lemma {:induction false} DrawnStays(xs: seq<Address>, draw: nat -> nat, i: nat, k: nat)
    requires i <= k <= |xs|
    ensures Shuffled(xs, draw, k)[..i] == Shuffled(xs, draw, i)[..i]
  {
    if i < k { DrawnStays(xs, draw, i, k - 1); }
  }

  /** The panel is a duplicate-free choice of `k` eligible arbiters. */
  lemma PanelIs(xs: seq<Address>, draw: nat -> nat, k: nat)
    requires NoRepeats(xs) && k <= |xs|
    ensures NoRepeats(Shuffled(xs, draw, k)[..k])
    ensures forall x <- Shuffled(xs, draw, k)[..k] :: x in xs
  {
    ShuffledIs(xs, draw, k);
  }

  lemma {:induction false} ShuffledAgree(xs: seq<Address>, d: nat -> nat, d': nat -> nat, i: nat)
    requires i <= |xs|
    requires forall p: nat :: p < i ==> d(p) == d'(p)
    ensures Shuffled(xs, d, i) == Shuffled(xs, d', i)
  {
    if i > 0 { ShuffledAgree(xs, d, d', i - 1); }
  }

  lemma PickIs(draw: nat -> nat, i: nat, len: nat)
    requires i < len && draw(i) < len - i
    ensures Pick(draw, i, len) == i + draw(i)
  {
  }

  /** Drawing place `j` next puts its arbiter in place `i`. */
  lemma DrawNext(xs: seq<Address>, d: nat -> nat, i: nat, j: nat) returns (draw: nat -> nat)
    requires i <= j < |xs|
    ensures Shuffled(xs, draw, i + 1) == Swap(Shuffled(xs, d, i), i, j)
  {
    draw := (p: nat) => if p == i then j - i else d(p);
    ShuffledAgree(xs, d, draw, i);
    PickIs(draw, i, |xs|);
  }

  /** Every ordered duplicate-free choice of eligible arbiters is some draw's panel. */
  lemma {:induction false} AnyPanel(xs: seq<Address>, target: seq<Address>) returns (draw: nat -> nat)
    requires NoRepeats(xs) && NoRepeats(target) && |target| <= |xs|
    requires forall a <- target :: a in xs
    ensures Shuffled(xs, draw, |target|)[..|target|] == target
  {
    if target == [] {
      draw := (p: nat) => 0;
    } else {
      var i := |target| - 1;
      var d := AnyPanel(xs, target[..i]);
      var j := PlaceOf(xs, d, target);
      draw := DrawNext(xs, d, i, j);
    }
  }

  /** An arbiter not drawn yet stands somewhere behind those drawn. */
  lemma PlaceOf(xs: seq<Address>, d: nat -> nat, target: seq<Address>) returns (j: nat)
    requires target != [] && NoRepeats(target) && |target| <= |xs|
    requires forall a <- target :: a in xs
    requires Shuffled(xs, d, |target| - 1)[..|target| - 1] == target[..|target| - 1]
    ensures |target| - 1 <= j < |xs| && Shuffled(xs, d, |target| - 1)[j] == target[|target| - 1]
  {
    var i, last := |target| - 1, target[|target| - 1];
    var ys := Shuffled(xs, d, i);
    ShuffledIs(xs, d, i);
    assert last in xs;
    j :| 0 <= j < |ys| && ys[j] == last;
    forall p | 0 <= p < i ensures ys[p] == target[p] != last { assert ys[p] == ys[..i][p] == target[..i][p]; }
  }

  // ----- Thresholds -----

  lemma Ordered(a: int, b: int, n: int)
    requires a <= b && n >= 0
    ensures a * n <= b * n
  {
  }

  lemma Cancel(a: int, b: int, n: int)
    requires n > 0 && a * n < b * n
    ensures a < b
  {
    if b <= a { Ordered(b, a, n); }
  }

  lemma ScaledUp(m: nat, n: nat, k: nat)
    requires 0 < m && 0 < n && 0 < k
    ensures var t := ScaledThreshold(m, n, k); t >= 1 && (t - 1) * n < m * k <= t * n
  {
  }

  /** From 2m > n, the scaled threshold is a majority of any panel and never more than it. */
  lemma MajorityThreshold(m: nat, n: nat, k: nat)
    requires 0 < m <= n < 2 * m && 0 < k <= n
    ensures 1 <= ScaledThreshold(m, n, k) <= k < 2 * ScaledThreshold(m, n, k)
  {
    var t := ScaledThreshold(m, n, k);
    ScaledUp(m, n, k);
    assert m * k <= n * k;
    Cancel(t - 1, k, n);
    assert k * n < k * (2 * m) by { Product(n, 2 * m, k); }
    assert k * (2 * m) == 2 * (m * k) && 2 * (t * n) == (2 * t) * n;
    Cancel(k, 2 * t, n);
  }

  lemma Product(a: int, b: int, k: int)
    requires a < b && k > 0
    ensures k * a < k * b
  {
  }

  // ----- Counting -----

  lemma {:induction false} SetOfSeq(xs: seq<Address>, keys: set<Address>)
    requires forall a <- keys :: a in xs
    ensures |keys| <= |xs|
  {
    if xs != [] {
      var last, front := xs[|xs| - 1], xs[..|xs| - 1];
      assert xs == front + [last];
      SetOfSeq(front, keys - {last});
    } else {
      assert keys == {};
    }
  }

  lemma VotesSplit(votes: map<Address, Vote>)
    ensures Count(votes, Upheld) + Count(votes, Dismissed) == |votes|
  {
    var u, d := Voters(votes, Upheld), Voters(votes, Dismissed);
    assert u + d == votes.Keys && u !! d;
    assert |u + d| == |u| + |d|;
  }

  lemma CountGrows(votes: map<Address, Vote>, votes': map<Address, Vote>, v: Vote)
    requires forall a <- votes :: a in votes' && votes'[a] == votes[a]
    ensures Count(votes, v) <= Count(votes', v)
  {
    Subset(Voters(votes, v), Voters(votes', v));
  }

  lemma {:induction false} Subset<T>(xs: set<T>, ys: set<T>)
    requires xs <= ys
    ensures |xs| <= |ys|
    decreases xs
  {
    if xs != {} {
      var x :| x in xs;
      Subset(xs - {x}, ys - {x});
    }
  }

  /** A panel's votes come from its members and its threshold is a majority of it. */
  ghost predicate Balanced(r: Round) {
    && r.panel != [] && NoRepeats(r.panel)
    && (forall a <- r.votes :: a in r.panel)
    && 1 <= r.threshold <= |r.panel| < 2 * r.threshold
  }

  /** Both outcomes never reach the threshold, and the one that has is the verdict. */
  lemma VerdictExclusive(r: Round)
    requires Balanced(r)
    ensures !(Count(r.votes, Upheld) >= r.threshold && Count(r.votes, Dismissed) >= r.threshold)
    ensures forall v :: Verdict(r) == Some(v) <==> Count(r.votes, v) >= r.threshold
  {
    VotesSplit(r.votes);
    SetOfSeq(r.panel, r.votes.Keys);
  }

  /** A unanimous panel always decides, so every threshold is within reach. */
  lemma VerdictReachable(r: Round, v: Vote)
    requires Balanced(r)
    requires forall a <- r.panel :: Won(r, a, v)
    ensures Verdict(r) == Some(v)
  {
    VerdictExclusive(r);
    MembersCounted(r.panel, Voters(r.votes, v));
  }

  lemma {:induction false} MembersCounted(xs: seq<Address>, keys: set<Address>)
    requires NoRepeats(xs) && forall a <- xs :: a in keys
    ensures |xs| <= |keys|
  {
    if xs != [] {
      var last, front := xs[|xs| - 1], xs[..|xs| - 1];
      assert last !in front;
      MembersCounted(front, keys - {last});
    }
  }

  /** A verdict has at least one member who voted for it. */
  lemma VerdictHasWinner(r: Round)
    requires Balanced(r) && Verdict(r).Some?
    ensures Winners(r, r.panel, Verdict(r).value) != []
  {
    var v := Verdict(r).value;
    var voters := Voters(r.votes, v);
    assert |voters| >= 1;
    var a :| a in voters;
    WinnersOnPanel(r, r.panel, v);
    assert a in r.panel && Won(r, a, v);
  }
}
