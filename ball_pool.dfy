/**
 * The ball pool registry (models/BallPoolService.java): one FIFO queue of ready balls per
 * variant. The pure functions below say what each operation does to the map of queues; the
 * class performs the operations in place and is proved against them.
 */
module BallPools {
  import opened Options
  import opened Variants
  import opened Balls

  type PoolMap = map<Variant, seq<Ball>>

  /** Every variant has a pool, and every pooled ball sits in the pool of its own variant. */
  ghost predicate WellKeyed(pools: PoolMap) {
    && (forall v: Variant :: v in pools)
    && (forall v, i :: v in pools && 0 <= i < |pools[v]| ==> pools[v][i].variant == v)
  }

  /** The six empty pools the registry starts with. */
  function EmptyPools(): (pools: PoolMap)
    ensures WellKeyed(pools)
    ensures forall v :: pools[v] == []
  {
    AllVariantsComplete();
    map v: Variant | v in AllVariants() :: []
  }

  /** Adding `b` to the tail of the pool of its own variant; no other pool changes. */
  function Offer(pools: PoolMap, b: Ball): (r: PoolMap)
    requires b.variant in pools
    ensures r.Keys == pools.Keys
    ensures r[b.variant] == pools[b.variant] + [b]
    ensures forall v :: v in pools && v != b.variant ==> r[v] == pools[v]
  {
    pools[b.variant := pools[b.variant] + [b]]
  }

  /**
   * A non-blocking take from pool `v`: the head of the pool and the pools without it, or
   * None and the pools unchanged when the pool is empty. No other pool changes.
   */
  function Poll(pools: PoolMap, v: Variant): (r: (Option<Ball>, PoolMap))
    requires v in pools
    ensures r.1.Keys == pools.Keys
    ensures pools[v] == [] ==> r == (None, pools)
    ensures pools[v] != [] ==> r.0 == Some(pools[v][0]) && r.1[v] == pools[v][1..]
    ensures forall u :: u in pools && u != v ==> r.1[u] == pools[u]
  {
    if pools[v] == [] then (None, pools)
    else (Some(pools[v][0]), pools[v := pools[v][1..]])
  }

  /** The ball a poll of the non-empty pool `v` hands out. */
  function Head(pools: PoolMap, v: Variant): (b: Ball)
    requires v in pools && pools[v] != []
    ensures Poll(pools, v).0 == Some(b)
  {
    pools[v][0]
  }

  /** Offering each ball of `bs` in list order. */
  function OfferAll(pools: PoolMap, bs: seq<Ball>): (r: PoolMap)
    requires forall v: Variant :: v in pools
    ensures forall v: Variant :: v in r
  {
    if bs == [] then pools
    else Offer(OfferAll(pools, bs[..|bs| - 1]), bs[|bs| - 1])
  }

  /** The balls of `bs` that are of variant `v`, in list order. */
  function OfVariant(bs: seq<Ball>, v: Variant): (r: seq<Ball>)
    ensures |r| <= |bs|
    ensures forall b :: b in r ==> b in bs && b.variant == v
  {
    if bs == [] then []
    else OfVariant(bs[..|bs| - 1], v) + (if bs[|bs| - 1].variant == v then [bs[|bs| - 1]] else [])
  }

  /** The balls held by the pools, as a set. */
  ghost function PooledSet(pools: PoolMap): set<Ball> {
    set v, i | v in pools && 0 <= i < |pools[v]| :: pools[v][i]
  }

  /** Returning a list of balls appends to each pool exactly the balls of its variant, in order. */
  lemma {:induction false} OfferAllContents(pools: PoolMap, bs: seq<Ball>)
    requires forall v: Variant :: v in pools
    ensures forall v: Variant :: v in OfferAll(pools, bs)
    ensures forall v :: OfferAll(pools, bs)[v] == pools[v] + OfVariant(bs, v)
  {
    if bs != [] {
      OfferAllContents(pools, bs[..|bs| - 1]);
      forall v ensures OfferAll(pools, bs)[v] == pools[v] + OfVariant(bs, v) {
        assert pools[v] + OfVariant(bs[..|bs| - 1], v) + (if bs[|bs| - 1].variant == v then [bs[|bs| - 1]] else [])
            == pools[v] + OfVariant(bs, v);
      }
    }
  }

  /** All balls held by the pools of the variants `vs`. */
  function PooledAcross(pools: PoolMap, vs: seq<Variant>): multiset<Ball> {
    if vs == [] then multiset{}
    else (if vs[0] in pools then multiset(pools[vs[0]]) else multiset{}) + PooledAcross(pools, vs[1..])
  }

  /** A ball held by the pools of `vs` sits in one of them. */
  lemma {:induction false} PooledAcrossMember(pools: PoolMap, vs: seq<Variant>, b: Ball)
    requires b in PooledAcross(pools, vs)
    ensures exists v :: v in pools && b in pools[v]
  {
    if vs[0] in pools && b in multiset(pools[vs[0]]) {
      assert b in pools[vs[0]];
    } else {
      PooledAcrossMember(pools, vs[1..], b);
    }
  }

  /** Every ball in a pool of `vs` is among the balls held by those pools. */
  lemma {:induction false} PooledAcrossHas(pools: PoolMap, vs: seq<Variant>, v: Variant, i: int)
    requires v in vs && v in pools && 0 <= i < |pools[v]|
    ensures pools[v][i] in PooledAcross(pools, vs)
  {
    if vs[0] != v {
      PooledAcrossHas(pools, vs[1..], v, i);
    }
  }

  /** Every pooled ball is among the balls the registry holds. */
  lemma PooledHas(pools: PoolMap, v: Variant, i: int)
    requires v in pools && 0 <= i < |pools[v]|
    ensures pools[v][i] in Pooled(pools)
  {
    AllVariantsComplete();
    PooledAcrossHas(pools, AllVariants(), v, i);
  }

  /** Empty pools hold no balls. */
  lemma {:induction false} PooledEmpty(pools: PoolMap, vs: seq<Variant>)
    requires forall v :: v in pools ==> pools[v] == []
    ensures PooledAcross(pools, vs) == multiset{}
  {
    if vs != [] {
      PooledEmpty(pools, vs[1..]);
    }
  }

  /** All balls held by the registry. */
  function Pooled(pools: PoolMap): multiset<Ball> {
    PooledAcross(pools, AllVariants())
  }

  /** Replacing one pool changes the pooled balls by exactly what that pool gained or lost. */
  lemma {:induction false} PooledAcrossUpdate(pools: PoolMap, vs: seq<Variant>, v: Variant, s: seq<Ball>)
    requires v in pools && Distinct(vs)
    ensures v in vs ==>
              PooledAcross(pools[v := s], vs) + multiset(pools[v]) == PooledAcross(pools, vs) + multiset(s)
    ensures v !in vs ==> PooledAcross(pools[v := s], vs) == PooledAcross(pools, vs)
  {
    if vs != [] {
      var updated := pools[v := s];
      var rest := vs[1..];
      assert Distinct(rest);
      PooledAcrossUpdate(pools, rest, v, s);
      var tailBefore, tailAfter := PooledAcross(pools, rest), PooledAcross(updated, rest);
      if vs[0] == v {
        assert v !in rest;
        assert tailAfter == tailBefore;
        assert PooledAcross(updated, vs) == multiset(s) + tailAfter;
        assert PooledAcross(pools, vs) == multiset(pools[v]) + tailBefore;
      } else {
        var head := if vs[0] in pools then multiset(pools[vs[0]]) else multiset{};
        assert PooledAcross(updated, vs) == head + tailAfter;
        assert PooledAcross(pools, vs) == head + tailBefore;
        assert vs == [vs[0]] + rest;
        if v in vs {
          assert v in rest;
          assert head + tailAfter + multiset(pools[v]) == head + (tailAfter + multiset(pools[v]));
        }
      }
    }
  }

  /** Adding the same multiset to both sides can be undone. */
  lemma MultisetCancel<T>(a: multiset<T>, b: multiset<T>, c: multiset<T>)
    requires a + c == b + c
    ensures a == b
  {
    forall x ensures a[x] == b[x] {
      assert (a + c)[x] == (b + c)[x];
    }
  }

  lemma PooledUpdate(pools: PoolMap, v: Variant, s: seq<Ball>)
    requires v in pools
    ensures Pooled(pools[v := s]) + multiset(pools[v]) == Pooled(pools) + multiset(s)
  {
    AllVariantsEnumerates(v);
    PooledAcrossUpdate(pools, AllVariants(), v, s);
  }

  /** Offering a ball adds exactly that ball to the pooled balls. */
  lemma PooledOffer(pools: PoolMap, b: Ball)
    requires b.variant in pools
    ensures Pooled(Offer(pools, b)) == Pooled(pools) + multiset{b}
  {
    var v := b.variant;
    PooledUpdate(pools, v, pools[v] + [b]);
    assert multiset(pools[v] + [b]) == multiset(pools[v]) + multiset{b};
    MultisetCancel(Pooled(Offer(pools, b)), Pooled(pools) + multiset{b}, multiset(pools[v]));
  }

  /** Polling removes exactly the ball it yields from the pooled balls. */
  lemma PooledPoll(pools: PoolMap, v: Variant)
    requires v in pools
    ensures var (b, r) := Poll(pools, v);
            Pooled(r) + (if b.Some? then multiset{b.value} else multiset{}) == Pooled(pools)
  {
    if pools[v] != [] {
      var rest := pools[v][1..];
      PooledUpdate(pools, v, rest);
      assert pools[v] == [pools[v][0]] + rest;
      assert multiset(pools[v]) == multiset{pools[v][0]} + multiset(rest);
      MultisetCancel(Pooled(pools[v := rest]) + multiset{pools[v][0]}, Pooled(pools), multiset(rest));
    }
  }

  /** Returning a list of balls adds exactly those balls to the pooled balls. */
  lemma {:induction false} PooledOfferAll(pools: PoolMap, bs: seq<Ball>)
    requires forall v: Variant :: v in pools
    ensures Pooled(OfferAll(pools, bs)) == Pooled(pools) + multiset(bs)
  {
    if bs != [] {
      var init, last := bs[..|bs| - 1], bs[|bs| - 1];
      PooledOfferAll(pools, init);
      var before := OfferAll(pools, init);
      PooledOffer(before, last);
      assert OfferAll(pools, bs) == Offer(before, last);
      assert bs == init + [last];
      assert multiset(bs) == multiset(init) + multiset{last};
    }
  }

  /** A poll yields None exactly when the pool is empty. */
  lemma PollEmpty(pools: PoolMap, v: Variant)
    requires v in pools
    ensures Poll(pools, v).0 == None <==> pools[v] == []
  {
  }

  /** FIFO round trip: on an empty pool, the ball just offered is the ball polled next. */
  lemma OfferThenPoll(pools: PoolMap, b: Ball)
    requires b.variant in pools && pools[b.variant] == []
    ensures Poll(Offer(pools, b), b.variant) == (Some(b), pools)
  {
    assert Offer(pools, b)[b.variant := []] == pools;
  }

  /** FIFO order: offering to a non-empty pool does not change which ball is polled next. */
  lemma OfferKeepsHead(pools: PoolMap, b: Ball, v: Variant)
    requires b.variant in pools && v in pools && pools[v] != []
    ensures Poll(Offer(pools, b), v).0 == Poll(pools, v).0
  {
  }

  class BallPoolService {
    /** The field bounds handed to every ball this registry constructs. */
    const boundsX: int
    const boundsY: int
    var pools: PoolMap

    ghost predicate Valid()
      reads this
    {
      WellKeyed(pools)
    }

    /** The registry starts with one empty pool for each of the six variants. */
    constructor (boundsX: int, boundsY: int)
      ensures Valid()
      ensures this.boundsX == boundsX && this.boundsY == boundsY
      ensures pools.Keys == set v | v in AllVariants()
      ensures forall v :: pools[v] == []
    {
      this.boundsX := boundsX;
      this.boundsY := boundsY;
      pools := EmptyPools();
    }

    /** All balls the registry holds. */
    function Contents(): multiset<Ball>
      reads this
    {
      Pooled(pools)
    }

    /** Takes the head of pool `v`, or yields None when that pool is empty. */
    method ConsumeBall(v: Variant) returns (ball: Option<Ball>)
      requires Valid()
      modifies this
      ensures Valid()
      ensures (ball, pools) == Poll(old(pools), v)
    {
      var poolWithDesiredType := pools[v];
      if poolWithDesiredType == [] {
        ball := None;
      } else {
        ball := Some(poolWithDesiredType[0]);
        pools := pools[v := poolWithDesiredType[1..]];
      }
    }

    /**
     * Constructs a new ball of variant `v` and appends it to pool `v`. When construction fails
     * (`constructionFails`, the source's reflective instantiation throwing), nothing changes.
     */
    method ProduceBall(v: Variant, constructionFails: bool) returns (ok: bool)
      requires Valid()
      modifies this
      ensures Valid()
      ensures ok == !constructionFails
      ensures !ok ==> pools == old(pools)
      ensures ok ==> |pools[v]| == |old(pools[v])| + 1
      ensures ok ==> var b := pools[v][|pools[v]| - 1];
                     && fresh(b) && b.variant == v && b.boundsX == boundsX && b.boundsY == boundsY
                     && pools == Offer(old(pools), b)
    {
      if constructionFails {
        return false;
      }
      var newBall := new Ball(v, boundsX, boundsY);
      pools := pools[v := pools[v] + [newBall]];
      ok := true;
    }

    /** Appends each ball to the pool of its own variant, in list order. */
    method ReturnBalls(ballsToReturn: seq<Ball>)
      requires Valid()
      modifies this
      ensures Valid()
      ensures pools == OfferAll(old(pools), ballsToReturn)
      ensures forall v :: pools[v] == old(pools[v]) + OfVariant(ballsToReturn, v)
    {
      var i := 0;
      while i < |ballsToReturn|
        invariant 0 <= i <= |ballsToReturn|
        invariant Valid()
        invariant pools == OfferAll(old(pools), ballsToReturn[..i])
      {
        var ball := ballsToReturn[i];
        assert ballsToReturn[..i + 1][..i] == ballsToReturn[..i];
        pools := pools[ball.variant := pools[ball.variant] + [ball]];
        i := i + 1;
      }
      assert ballsToReturn[..i] == ballsToReturn;
      OfferAllContents(old(pools), ballsToReturn);
    }

    /** Whether pool `v` holds no ball, so that consuming from it yields None (see PollEmpty). */
    function IsBallPoolEmpty(v: Variant): (empty: bool)
      reads this
      requires Valid()
      ensures empty <==> |pools[v]| == 0
    {
      |pools[v]| == 0
    }

    /** The size of every pool, keyed by variant. */
    function AmountOfAvailableBalls(): (counts: map<Variant, int>)
      reads this
      requires Valid()
      ensures forall v: Variant :: v in counts && counts[v] == |pools[v]|
      ensures forall v :: counts[v] == 0 <==> IsBallPoolEmpty(v)
    {
      map v | v in pools :: |pools[v]|
    }
  }
}
