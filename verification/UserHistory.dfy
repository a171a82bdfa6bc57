/**
  The user's intent history as the contract stores it: buckets of 64 slots and a
  count. Appending, blanking and paging behave as on one flat sequence, which is
  how SettlementModel keeps it.
 */
module UserHistory {
  import opened Wrappers
  import opened SettlementMath
  import opened SettlementModel
  import opened SettlementRecords

  const BUCKET := 64
  const MAX_PAGE_SIZE := 100

  type Slot = Option<IntentId>

  /** The ids left in `slots`, in order. */
  function Live(slots: seq<Slot>): seq<IntentId> {
    if slots == [] then [] else
    Live(slots[..|slots| - 1]) + (match slots[|slots| - 1] case Some(id) => [id] case None => [])
  }

  /** One page: at most 100 slots from `start`, holes skipped. */
  function Page(slots: seq<Slot>, start: nat, limit: nat): seq<IntentId> {
    var capped := Min(limit, MAX_PAGE_SIZE);
    if start >= |slots| || capped == 0 then [] else Live(slots[start..Min(start + capped, |slots|)])
  }

  /** What a reader gets who asks for page after page of `limit` until past the end. */
  function Paged(slots: seq<Slot>, start: nat, limit: nat): seq<IntentId>
    requires 0 < limit
    decreases |slots| - start
  {
    if start >= |slots| then [] else
    Page(slots, start, limit) + Paged(slots, start + Min(limit, MAX_PAGE_SIZE), limit)
  }

  lemma {:induction false} LiveConcat(xs: seq<Slot>, ys: seq<Slot>)
    ensures Live(xs + ys) == Live(xs) + Live(ys)
  {
    if ys == [] {
      assert xs + ys == xs;
    } else {
      var front := ys[..|ys| - 1];
      LiveConcat(xs, front);
      assert (xs + ys)[..|xs + ys| - 1] == xs + front;
    }
  }

  lemma LiveSplit(slots: seq<Slot>, start: nat, next: nat)
    requires start <= next <= |slots|
    ensures Live(slots[start..]) == Live(slots[start..next]) + Live(slots[next..])
  {
    LiveConcat(slots[start..next], slots[next..]);
    assert slots[start..] == slots[start..next] + slots[next..];
  }

  lemma LiveNext(slots: seq<Slot>, start: nat, i: nat)
    requires start <= i < |slots|
    ensures Live(slots[start..i + 1]) == Live(slots[start..i]) + (if slots[i].Some? then [slots[i].value] else [])
  {
    assert slots[start..i + 1][..i - start] == slots[start..i];
  }

  /** Pages of any positive size, one after the other, list every live id once, in order. */
  lemma {:induction false} PagesCover(slots: seq<Slot>, start: nat, limit: nat)
    requires 0 < limit && start <= |slots|
    ensures Paged(slots, start, limit) == Live(slots[start..])
    decreases |slots| - start
  {
    if start < |slots| {
      var step := start + Min(limit, MAX_PAGE_SIZE);
      var next := Min(step, |slots|);
      PagesCover(slots, next, limit);
      LiveSplit(slots, start, next);
      assert Paged(slots, step, limit) == Paged(slots, next, limit);
    }
  }

  /** A user's submissions in order, less the closed ones. */
  function Submissions(s: State, ids: seq<IntentId>): seq<IntentId> {
    if ids == [] then [] else
    var last := ids[|ids| - 1];
    Submissions(s, ids[..|ids| - 1]) + (if last in s.intents then [last] else [])
  }

  lemma {:induction false} LiveSubmissions(s: State, slots: seq<Slot>, ids: seq<IntentId>)
    requires |slots| == |ids|
    requires forall k :: 0 <= k < |ids| ==> slots[k] == if ids[k] in s.intents then Some(ids[k]) else None
    ensures Live(slots) == Submissions(s, ids)
  {
    if ids != [] {
      LiveSubmissions(s, slots[..|ids| - 1], ids[..|ids| - 1]);
    }
  }

  /** In every state of the contract, paging through a user's history yields what
      the user submitted, in order, less what was closed. */
  lemma ListingIsSubmissionOrder(s: State, u: Address, limit: nat)
    requires Records(s) && limit > 0
    ensures Paged(HistoryOf(s, u), 0, limit) == Submissions(s, IssuedTo(s, u))
  {
    assert ListedFor(s, u);
    var h := HistoryOf(s, u);
    PagesCover(h, 0, limit);
    assert h[0..] == h;
    LiveSubmissions(s, h, IssuedTo(s, u));
  }

  // ----- Blanking -----

  lemma {:induction false} BlankFirstAt(h: seq<Slot>, id: IntentId, p: nat)
    requires p < |h| && h[p] == Some(id) && Some(id) !in h[..p]
    ensures BlankFirst(h, id) == h[p := None]
  {
    if p > 0 {
      assert h[..p] == [h[0]] + h[1..][..p - 1];
      BlankFirstAt(h[1..], id, p - 1);
      assert h[p := None] == [h[0]] + h[1..][p - 1 := None];
    } else {
      assert h[0 := None] == [None] + h[1..];
    }
  }

  lemma {:induction false} BlankFirstAbsent(h: seq<Slot>, id: IntentId)
    requires Some(id) !in h
    ensures BlankFirst(h, id) == h
  {
    if h != [] {
      assert Some(id) !in h[1..];
      BlankFirstAbsent(h[1..], id);
      assert h == [h[0]] + h[1..];
    }
  }

  // ----- Buckets -----

  type Buckets = map<(Address, nat), seq<Slot>>

  /** Bucket `b` of a history: its slots 64b to 64b + 63, as far as it goes. */
  function Slice(h: seq<Slot>, b: nat): seq<Slot>
    requires b * BUCKET < |h|
  {
    h[b * BUCKET..Min((b + 1) * BUCKET, |h|)]
  }

  predicate StoresOne(buckets: Buckets, u: Address, h: seq<Slot>, b: nat) {
    && ((u, b) in buckets <==> b * BUCKET < |h|)
    && ((u, b) in buckets ==> buckets[(u, b)] == Slice(h, b))
  }

  /** The buckets of `u` are the slices of `h`, and there are no others. */
  ghost predicate Stores(buckets: Buckets, u: Address, h: seq<Slot>) {
    forall b: nat :: StoresOne(buckets, u, h, b)
  }

  /** Item `i` lives in bucket `i / 64`, slot `i % 64`, and in no other place. */
  lemma ItemPlace(buckets: Buckets, u: Address, h: seq<Slot>, b: nat, slot: nat)
    requires StoresOne(buckets, u, h, b)
    ensures ((u, b) in buckets && slot < |buckets[(u, b)]|) <==> (slot < BUCKET && b * BUCKET + slot < |h|)
    ensures (u, b) in buckets && slot < |buckets[(u, b)]| ==>
              buckets[(u, b)][slot] == h[b * BUCKET + slot]
              && b == (b * BUCKET + slot) / BUCKET && slot == (b * BUCKET + slot) % BUCKET
  {
  }

  lemma AppendStores(buckets: Buckets, u: Address, h: seq<Slot>, x: Slot)
    requires Stores(buckets, u, h)
    ensures var b := |h| / BUCKET;
            var page := if (u, b) in buckets then buckets[(u, b)] else [];
            Stores(buckets[(u, b) := page + [x]], u, h + [x])
  {
    var b := |h| / BUCKET;
    var page := if (u, b) in buckets then buckets[(u, b)] else [];
    assert StoresOne(buckets, u, h, b);
    var buckets', h' := buckets[(u, b) := page + [x]], h + [x];
    assert page + [x] == Slice(h', b);
    forall c: nat ensures StoresOne(buckets', u, h', c) {
      assert StoresOne(buckets, u, h, c);
      if c != b && c * BUCKET < |h| { assert Slice(h', c) == Slice(h, c); }
    }
  }

  lemma BlankStores(buckets: Buckets, u: Address, h: seq<Slot>, b: nat, slot: nat)
    requires Stores(buckets, u, h) && StoresOne(buckets, u, h, b) && (u, b) in buckets && slot < |buckets[(u, b)]|
    ensures Stores(buckets[(u, b) := buckets[(u, b)][slot := None]], u, h[b * BUCKET + slot := None])
  {
    var buckets', h' := buckets[(u, b) := buckets[(u, b)][slot := None]], h[b * BUCKET + slot := None];
    assert buckets'[(u, b)] == Slice(h', b);
    forall c: nat ensures StoresOne(buckets', u, h', c) {
      assert StoresOne(buckets, u, h, c);
      if c != b && c * BUCKET < |h| { assert Slice(h', c) == Slice(h, c); }
    }
  }

  lemma OthersStored(buckets: Buckets, u: Address, b: nat, page: seq<Slot>, v: Address, h: seq<Slot>)
    requires v != u && Stores(buckets, v, h)
    ensures Stores(buckets[(u, b) := page], v, h)
  {
    var buckets' := buckets[(u, b) := page];
    forall c: nat ensures StoresOne(buckets', v, h, c) { assert StoresOne(buckets, v, h, c); }
  }

  class Store {
    var counts: map<Address, nat>
    var buckets: Buckets
    ghost var history: map<Address, seq<Slot>>

    ghost function History(u: Address): seq<Slot>
      reads this
    {
      if u in history then history[u] else []
    }

    ghost predicate Valid()
      reads this
    {
      && (forall u :: Stores(buckets, u, History(u)))
      && (forall u :: (if u in counts then counts[u] else 0) == |History(u)|)
    }

    constructor ()
      ensures Valid()
      ensures forall u :: History(u) == []
    {
      counts, buckets, history := map[], map[], map[];
    }

    method Append(u: Address, id: IntentId)
      requires Valid()
      modifies this
      ensures Valid()
      ensures History(u) == old(History(u)) + [Some(id)]
      ensures forall v :: v != u ==> History(v) == old(History(v))
    {
      var count := if u in counts then counts[u] else 0;
      var bucket := count / BUCKET;
      AppendStores(buckets, u, History(u), Some(id));
      var page := if (u, bucket) in buckets then buckets[(u, bucket)] else [];
      page := page + [Some(id)];
      history := history[u := History(u) + [Some(id)]];
      buckets := buckets[(u, bucket) := page];
      counts := counts[u := count + 1];
      forall v | v != u ensures Stores(buckets, v, History(v)) {
        assert History(v) == old(History(v));
        OthersStored(old(buckets), u, bucket, page, v, History(v));
      }
    }

    /** The scan of `close_intent`: the first slot holding `id` becomes a hole. */
    method Blank(u: Address, id: IntentId)
      requires Valid()
      modifies this
      ensures Valid()
      ensures History(u) == BlankFirst(old(History(u)), id)
      ensures forall v :: v != u ==> History(v) == old(History(v))
    {
      ghost var h := History(u);
      var count := if u in counts then counts[u] else 0;
      var b, limit := 0, (count + BUCKET - 1) / BUCKET;
      while b < limit
        invariant 0 <= b <= limit
        invariant buckets == old(buckets) && history == old(history) && counts == old(counts)
        invariant Some(id) !in h[..Min(b * BUCKET, |h|)]
      {
        assert StoresOne(buckets, u, h, b);
        if (u, b) in buckets {
          var page, s := buckets[(u, b)], 0;
          while s < |page|
            invariant 0 <= s <= |page|
            invariant buckets == old(buckets) && history == old(history) && counts == old(counts)
            invariant Some(id) !in page[..s]
          {
            if page[s] == Some(id) {
              Unseen(h, b, s, Some(id));
              BlankFirstAt(h, id, b * BUCKET + s);
              BlankStores(buckets, u, h, b, s);
              buckets := buckets[(u, b) := page[s := None]];
              history := history[u := h[b * BUCKET + s := None]];
              forall v | v != u ensures Stores(buckets, v, History(v)) {
                assert History(v) == old(History(v));
                OthersStored(old(buckets), u, b, page[s := None], v, History(v));
              }
              return;
            }
            assert page[..s + 1] == page[..s] + [page[s]];
            s := s + 1;
          }
          assert page[..s] == page;
          Unseen(h, b, |page|, Some(id));
        }
        b := b + 1;
      }
      assert h[..|h|] == h;
      BlankFirstAbsent(h, id);
      forall v ensures History(v) == old(History(v)) {}
      assert Valid();
    }

    /** `list_intents_by_user`. */
    method List(u: Address, start: nat, limit: nat) returns (result: seq<IntentId>)
      requires Valid()
      ensures result == Page(History(u), start, limit)
    {
      var total := if u in counts then counts[u] else 0;
      var capped := if limit < MAX_PAGE_SIZE then limit else MAX_PAGE_SIZE;
      result := [];
      if start >= total || capped == 0 { return; }
      var end := if start + capped < total then start + capped else total;
      ghost var h := History(u);
      var i := start;
      while i < end
        invariant start <= i <= end
        invariant result == Live(h[start..i])
      {
        var bucket, slot := i / BUCKET, i % BUCKET;
        ItemPlace(buckets, u, h, bucket, slot);
        LiveNext(h, start, i);
        if (u, bucket) in buckets {
          var page := buckets[(u, bucket)];
          if slot < |page| && page[slot].Some? { result := result + [page[slot].value]; }
        }
        i := i + 1;
      }
    }
  }

  /** Neither the buckets scanned so far nor the first slots of this one hold `x`. */
  lemma Unseen(h: seq<Slot>, b: nat, s: nat, x: Slot)
    requires b * BUCKET < |h| && s <= |Slice(h, b)|
    requires x !in h[..b * BUCKET] && x !in Slice(h, b)[..s]
    ensures x !in h[..b * BUCKET + s]
  {
    assert h[..b * BUCKET + s] == h[..b * BUCKET] + Slice(h, b)[..s];
  }
}
