/**
 * The game model (models/PongModel.java): the two paddles, the balls in play, the ball
 * registry and its two factories, the level and the clock.
 *
 * The thread pool of the source runs every production task on a worker thread; here a task
 * runs to completion when it is submitted, so a supply pass has finished producing when it
 * returns. The random draws of the factories and of the ball moves, and the current time, are
 * parameters.
 */
module Pong {
  import opened Options
  import opened Constants
  import opened Variants
  import opened Balls
  import opened BallPools
  import opened BallFactories
  import opened Paddles
  import ResultWriters

  /** Whole seconds from `start` to `now` (both in milliseconds), truncated toward zero. */
  function ElapsedSeconds(start: int, now: int): (s: int)
    ensures now >= start ==> 0 <= s && s * 1000 <= now - start < s * 1000 + 1000
    ensures now < start ==> s <= 0 && s * 1000 - 1000 < now - start <= s * 1000
  {
    JavaDiv(now - start, 1000)
  }

  /** A new level starts when the elapsed seconds are a non-zero multiple of the level length. */
  predicate IsNextLevel(elapsedSeconds: int) {
    // Java's `%` truncates toward zero and Dafny's is Euclidean; both are zero on exactly
    // the multiples of the divisor.
    elapsedSeconds != 0 && elapsedSeconds % TimeBetweenLevels == 0
  }

  /** `n` production requests for variant `v`. */
  function Batch(v: Variant, n: nat): (r: seq<Variant>)
    ensures |r| == n
  {
    if n == 0 then [] else Batch(v, n - 1) + [v]
  }

  lemma {:induction false} BatchCount(v: Variant, n: nat, u: Variant)
    ensures multiset(Batch(v, n))[u] == if u == v then n else 0
  {
    if n > 0 {
      BatchCount(v, n - 1, u);
    }
  }

  /**
   * The production requests one supply pass issues when the pools hold `counts` balls, after
   * visiting the first `k` variants of `order`: a batch of five for every pool below ten.
   */
  function SupplyRequests(counts: map<Variant, int>, order: seq<Variant>, k: nat): seq<Variant>
    requires k <= |order|
    requires forall v :: v in counts
  {
    if k == 0 then []
    else
      var v := order[k - 1];
      SupplyRequests(counts, order, k - 1)
        + (if counts[v] < BallPoolMinimumBalls then Batch(v, BallPoolNewBallsBatchAmount) else [])
  }

  /** A supply pass issues some request exactly when some visited pool is below ten. */
  lemma {:induction false} SupplyRequestsIssued(counts: map<Variant, int>, order: seq<Variant>, k: nat)
    requires k <= |order|
    requires forall v :: v in counts
    ensures |SupplyRequests(counts, order, k)| > 0
            <==> exists j :: 0 <= j < k && counts[order[j]] < BallPoolMinimumBalls
  {
    if k > 0 {
      SupplyRequestsIssued(counts, order, k - 1);
      if counts[order[k - 1]] < BallPoolMinimumBalls {
        assert |SupplyRequests(counts, order, k)| > 0;
      }
    }
  }

  /** A whole supply pass issues some request exactly when some pool is below ten. */
  lemma SupplyRequestsIssuedAll(counts: map<Variant, int>, order: seq<Variant>)
    requires forall v :: v in counts && v in order
    ensures |SupplyRequests(counts, order, |order|)| > 0 <==> exists v :: counts[v] < BallPoolMinimumBalls
  {
    SupplyRequestsIssued(counts, order, |order|);
    if v :| counts[v] < BallPoolMinimumBalls {
      assert v in order;
      var j :| 0 <= j < |order| && order[j] == v;
    }
  }

  /** Visiting the `k`-th variant adds five requests for it if its pool is below ten, and nothing else. */
  lemma SupplyRequestsStep(counts: map<Variant, int>, order: seq<Variant>, k: nat, u: Variant)
    requires 0 < k <= |order|
    requires forall v :: v in counts
    ensures multiset(SupplyRequests(counts, order, k))[u]
            == multiset(SupplyRequests(counts, order, k - 1))[u]
               + if u == order[k - 1] && counts[u] < BallPoolMinimumBalls then BallPoolNewBallsBatchAmount else 0
  {
    var v := order[k - 1];
    var batch := if counts[v] < BallPoolMinimumBalls then Batch(v, BallPoolNewBallsBatchAmount) else [];
    BatchCount(v, BallPoolNewBallsBatchAmount, u);
    assert SupplyRequests(counts, order, k) == SupplyRequests(counts, order, k - 1) + batch;
  }

  /** A supply pass asks for five balls of each visited variant whose pool is below ten, and none of any other. */
  lemma {:induction false} SupplyRequestsCount(counts: map<Variant, int>, order: seq<Variant>, k: nat, u: Variant)
    requires k <= |order|
    requires forall v :: v in counts
    requires Distinct(order)
    ensures multiset(SupplyRequests(counts, order, k))[u]
            == if u in order[..k] && counts[u] < BallPoolMinimumBalls then BallPoolNewBallsBatchAmount else 0
  {
    if k > 0 {
      SupplyRequestsCount(counts, order, k - 1, u);
      SupplyRequestsStep(counts, order, k, u);
      TakeSnoc(order, k - 1);
      if u == order[k - 1] {
        assert u !in order[..k - 1];
      }
    }
  }

  /** The size of a pool after one supply pass: five more if it held fewer than ten. */
  function ToppedUp(count: int): (r: int)
    requires count >= 0
    ensures r >= count && r >= BallPoolNewBallsBatchAmount
    ensures r >= BallPoolMinimumBalls <==> count >= BallPoolMinimumBalls - BallPoolNewBallsBatchAmount
  {
    if count < BallPoolMinimumBalls then count + BallPoolNewBallsBatchAmount else count
  }

  /** One supply pass does not always reach the minimum: a pool of three is topped up to eight. */
  lemma SupplyPassCanStayBelowMinimum()
    ensures ToppedUp(3) == 8 < BallPoolMinimumBalls
  {
  }

  /** The size class a draw picks; the draw must be one `nextInt(3)` can produce. */
  function DrawnSize(d: SpawnDraw): SizeClass
    requires 0 <= d.size < 3
  {
    SizeForDraw(d.size).value
  }

  /** The variants one spawn takes from the registry: two hard balls in hard mode, else one easy ball. */
  function SpawnVariants(hardMode: bool, d1: SpawnDraw, d2: SpawnDraw): seq<Variant>
    requires 0 <= d1.size < 3 && 0 <= d2.size < 3
  {
    if hardMode then [Variant(Hard, DrawnSize(d1)), Variant(Hard, DrawnSize(d2))]
    else [Variant(Easy, DrawnSize(d1))]
  }

  /** A spawn never takes more than two balls of one variant. */
  lemma SpawnVariantsAtMostTwo(hardMode: bool, d1: SpawnDraw, d2: SpawnDraw, v: Variant)
    requires 0 <= d1.size < 3 && 0 <= d2.size < 3
    ensures multiset(SpawnVariants(hardMode, d1, d2))[v] <= 2
  {
    var vs := SpawnVariants(hardMode, d1, d2);
    if hardMode {
      assert multiset(vs) == multiset{vs[0]} + multiset{vs[1]};
    } else {
      assert multiset(vs) == multiset{vs[0]};
    }
  }

  /**
   * Polling the pools of `vs` in order: the balls taken and the pools left. Every pool must
   * hold at least as many balls as `vs` asks of it.
   */
  function TakeAll(pools: PoolMap, vs: seq<Variant>): (r: (seq<Ball>, PoolMap))
    requires WellKeyed(pools)
    requires forall v :: multiset(vs)[v] <= |pools[v]|
    ensures WellKeyed(r.1)
    ensures |r.0| == |vs|
    ensures forall j :: 0 <= j < |vs| ==> r.0[j].variant == vs[j]
    decreases |vs|
  {
    if vs == [] then ([], pools)
    else
      var v := vs[0];
      assert vs == [v] + vs[1..];
      assert multiset(vs) == multiset{v} + multiset(vs[1..]);
      var polled := Poll(pools, v);
      var tail := TakeAll(polled.1, vs[1..]);
      ([polled.0.value] + tail.0, tail.1)
  }

  lemma MultisetRegroup<T>(a: multiset<T>, b: multiset<T>, c: multiset<T>, ab: multiset<T>, abc: multiset<T>)
    requires a + b == ab && ab + c == abc
    ensures a + (c + b) == abc
  {
    forall x ensures (a + (c + b))[x] == abc[x] {
      assert (a + b)[x] == ab[x];
      assert (ab + c)[x] == abc[x];
    }
  }

  /** One step of TakeAll: the head of the first requested pool, then the rest taken from what is left. */
  lemma TakeAllStep(pools: PoolMap, vs: seq<Variant>)
    requires WellKeyed(pools)
    requires forall v :: multiset(vs)[v] <= |pools[v]|
    requires vs != []
    ensures pools[vs[0]] != []
    ensures forall u :: multiset(vs[1..])[u] <= |Poll(pools, vs[0]).1[u]|
    ensures var rest := Poll(pools, vs[0]).1;
            TakeAll(pools, vs) == ([pools[vs[0]][0]] + TakeAll(rest, vs[1..]).0, TakeAll(rest, vs[1..]).1)
  {
    assert vs == [vs[0]] + vs[1..];
    assert multiset(vs) == multiset{vs[0]} + multiset(vs[1..]);
  }

  /** Polling `b` from the pools and putting it in front of balls taken later conserves the balls. */
  lemma PollThenTakeConserves(pools: PoolMap, v: Variant, b: Ball, rest: PoolMap,
                              laterTaken: seq<Ball>, laterPools: PoolMap)
    requires v in pools && Poll(pools, v) == (Some(b), rest)
    requires Pooled(laterPools) + multiset(laterTaken) == Pooled(rest)
    ensures Pooled(laterPools) + multiset([b] + laterTaken) == Pooled(pools)
  {
    PooledPoll(pools, v);
    MultisetOfCons(b, laterTaken);
    MultisetRegroup(Pooled(laterPools), multiset(laterTaken), multiset{b}, Pooled(rest), Pooled(pools));
  }

  /** Taking balls moves them out of the registry and nothing else: no ball is lost or made. */
  lemma {:induction false} TakeAllConserves(pools: PoolMap, vs: seq<Variant>)
    requires WellKeyed(pools)
    requires forall v :: multiset(vs)[v] <= |pools[v]|
    ensures Pooled(TakeAll(pools, vs).1) + multiset(TakeAll(pools, vs).0) == Pooled(pools)
    decreases |vs|
  {
    if vs != [] {
      TakeAllStep(pools, vs);
      var v, later := vs[0], vs[1..];
      var rest, b := Poll(pools, v).1, pools[v][0];
      TakeAllConserves(rest, later);
      var tail := TakeAll(rest, later);
      PollThenTakeConserves(pools, v, b, rest, tail.0, tail.1);
    }
  }

  lemma TakeAllOne(pools: PoolMap, v: Variant)
    requires WellKeyed(pools) && multiset([v])[v] <= |pools[v]|
    ensures forall u :: multiset([v])[u] <= |pools[u]|
    ensures TakeAll(pools, [v]) == ([pools[v][0]], Poll(pools, v).1)
  {
    assert multiset([v]) == multiset{v};
    TakeAllStep(pools, [v]);
    assert [v][1..] == [];
    var rest := Poll(pools, v).1;
    assert TakeAll(rest, []) == ([], rest);
    assert [pools[v][0]] + [] == [pools[v][0]];
  }

  lemma TakeAllTwo(pools: PoolMap, v1: Variant, v2: Variant)
    requires WellKeyed(pools)
    requires forall u :: multiset([v1, v2])[u] <= |pools[u]|
    ensures var after1 := Poll(pools, v1).1;
            |after1[v2]| >= 1
            && TakeAll(pools, [v1, v2]) == ([pools[v1][0], after1[v2][0]], Poll(after1, v2).1)
  {
    TakeAllStep(pools, [v1, v2]);
    assert [v1, v2][1..] == [v2];
    var rest := Poll(pools, v1).1;
    assert multiset([v2])[v2] <= |rest[v2]|;
    TakeAllOne(rest, v2);
    assert [pools[v1][0]] + [rest[v2][0]] == [pools[v1][0], rest[v2][0]];
  }

  /** The balls one spawn takes: the heads of the pools it polls, in turn. */
  ghost function SpawnHeads(pools: PoolMap, hardMode: bool, d1: SpawnDraw, d2: SpawnDraw): set<Ball>
    requires WellKeyed(pools)
    requires 0 <= d1.size < 3 && 0 <= d2.size < 3
    requires forall v :: multiset(SpawnVariants(hardMode, d1, d2))[v] <= |pools[v]|
  {
    var v1, v2 := Variant(if hardMode then Hard else Easy, DrawnSize(d1)), Variant(Hard, DrawnSize(d2));
    if hardMode then
      TakeAllTwo(pools, v1, v2);
      {Head(pools, v1), Head(Poll(pools, v1).1, v2)}
    else
      TakeAllOne(pools, v1);
      {Head(pools, v1)}
  }

  /** Polling hands out only balls the pools held before. */
  lemma PolledFromPools(pools: PoolMap, v: Variant, u: Variant, i: int)
    requires v in pools && u in pools
    requires 0 <= i < |Poll(pools, v).1[u]|
    ensures Poll(pools, v).1[u][i] in PooledSet(pools)
  {
    if u == v {
      assert Poll(pools, v).1[u][i] == pools[v][i + 1];
    } else {
      assert Poll(pools, v).1[u][i] == pools[u][i];
    }
  }
  /** The balls a spawn takes are all in the pools. */
  lemma SpawnHeadsPooled(pools: PoolMap, hardMode: bool, d1: SpawnDraw, d2: SpawnDraw)
    requires WellKeyed(pools)
    requires 0 <= d1.size < 3 && 0 <= d2.size < 3
    requires forall v :: multiset(SpawnVariants(hardMode, d1, d2))[v] <= |pools[v]|
    ensures SpawnHeads(pools, hardMode, d1, d2) <= PooledSet(pools)
  {
    var v1, v2 := Variant(if hardMode then Hard else Easy, DrawnSize(d1)), Variant(Hard, DrawnSize(d2));
    if hardMode {
      TakeAllTwo(pools, v1, v2);
      PolledFromPools(pools, v1, v2, 0);
    } else {
      TakeAllOne(pools, v1);
    }
    assert pools[v1][0] in PooledSet(pools);
  }

  lemma MultisetOfCons<T>(x: T, s: seq<T>)
    ensures multiset([x] + s) == multiset{x} + multiset(s)
  {
  }

  lemma TakeSnoc<T>(s: seq<T>, k: int)
    requires 0 <= k < |s|
    ensures s[..k + 1] == s[..k] + [s[k]]
  {
  }

  lemma AppendAssoc<T>(a: seq<T>, b: seq<T>, c: seq<T>)
    ensures a + b + c == a + (b + c)
  {
  }

  lemma AppendTwo<T>(s: seq<T>, a: T, b: T)
    ensures s + [a] + [b] == s + [a, b]
  {
  }

  /** The variant of each ball of `bs`, in order. */
  function VariantsOf(bs: seq<Ball>): (vs: seq<Variant>)
    ensures |vs| == |bs|
    ensures forall i :: 0 <= i < |bs| ==> vs[i] == bs[i].variant
  {
    seq(|bs|, i requires 0 <= i < |bs| => bs[i].variant)
  }

  /** Balls taken for the variants `vs` and appended to `inPlay` add exactly `vs` to its variants. */
  lemma VariantsOfTaken(pools: PoolMap, inPlay: seq<Ball>, vs: seq<Variant>)
    requires WellKeyed(pools)
    requires forall v :: multiset(vs)[v] <= |pools[v]|
    ensures VariantsOf(inPlay + TakeAll(pools, vs).0) == VariantsOf(inPlay) + vs
  {
  }

  /** Ball `b` sits at (`x`, `y`) and moves `speed` pixels along each axis, in either direction. */
  predicate LaunchedFrom(b: Ball, x: int, y: int, speed: int)
    reads b
  {
    && b.x == x && b.y == y
    && (b.xVelocity == speed || b.xVelocity == -speed)
    && (b.yVelocity == speed || b.yVelocity == -speed)
  }

  /** Every ball the game knows of: those waiting in the pools and those in play. */
  ghost function PopulationOf(pools: PoolMap, inPlay: seq<Ball>): multiset<Ball> {
    Pooled(pools) + multiset(inPlay)
  }

  /** Every ball the game knows of, pooled or in play, was made for the field of `boundsX` by `boundsY`. */
  ghost predicate InField(pools: PoolMap, inPlay: seq<Ball>, boundsX: int, boundsY: int) {
    && (forall u, i :: u in pools && 0 <= i < |pools[u]| ==>
          pools[u][i].boundsX == boundsX && pools[u][i].boundsY == boundsY)
    && (forall j :: 0 <= j < |inPlay| ==> inPlay[j].boundsX == boundsX && inPlay[j].boundsY == boundsY)
  }

  /** Any ball of the population of a game within the field was made for that field. */
  lemma InFieldMember(pools: PoolMap, inPlay: seq<Ball>, boundsX: int, boundsY: int, b: Ball)
    requires InField(pools, inPlay, boundsX, boundsY)
    requires b in PopulationOf(pools, inPlay)
    ensures b.boundsX == boundsX && b.boundsY == boundsY
  {
    if b in multiset(inPlay) {
      var j :| 0 <= j < |inPlay| && inPlay[j] == b;
    } else {
      PooledAcrossMember(pools, AllVariants(), b);
      var v :| v in pools && b in pools[v];
      var i :| 0 <= i < |pools[v]| && pools[v][i] == b;
    }
  }

  /** Moving balls between the pools and play, with no ball lost or made, keeps them in the field. */
  lemma InFieldSamePopulation(pools: PoolMap, inPlay: seq<Ball>, pools': PoolMap, inPlay': seq<Ball>,
                              boundsX: int, boundsY: int)
    requires InField(pools, inPlay, boundsX, boundsY)
    requires PopulationOf(pools', inPlay') == PopulationOf(pools, inPlay)
    ensures InField(pools', inPlay', boundsX, boundsY)
  {
    forall u, i | u in pools' && 0 <= i < |pools'[u]|
      ensures pools'[u][i].boundsX == boundsX && pools'[u][i].boundsY == boundsY
    {
      PooledHas(pools', u, i);
      InFieldMember(pools, inPlay, boundsX, boundsY, pools'[u][i]);
    }
    forall j | 0 <= j < |inPlay'|
      ensures inPlay'[j].boundsX == boundsX && inPlay'[j].boundsY == boundsY
    {
      assert inPlay'[j] in multiset(inPlay');
      InFieldMember(pools, inPlay, boundsX, boundsY, inPlay'[j]);
    }
  }

  /**
   * Every ball sits in exactly one place: no pool holds a ball twice, no pooled ball is in
   * play, and no ball is in play twice. (A ball also never sits in two pools, as each pool
   * holds only balls of its own variant.)
   */
  ghost predicate ExclusiveOf(pools: PoolMap, inPlay: seq<Ball>) {
    && (forall u :: u in pools ==> Distinct(pools[u]))
    && (forall u, i :: u in pools && 0 <= i < |pools[u]| ==> pools[u][i] !in inPlay)
    && Distinct(inPlay)
  }

  lemma DistinctConcat<T>(a: seq<T>, b: seq<T>)
    requires Distinct(a) && Distinct(b)
    requires forall i, j :: 0 <= i < |a| && 0 <= j < |b| ==> a[i] != b[j]
    ensures Distinct(a + b)
  {
    forall i, j | 0 <= i < j < |a + b| ensures (a + b)[i] != (a + b)[j] {
      if j >= |a| {
        assert (a + b)[j] == b[j - |a|];
      }
    }
  }

  lemma DistinctAppend<T>(s: seq<T>, x: T)
    requires Distinct(s) && x !in s
    ensures Distinct(s + [x])
  {
    DistinctConcat(s, [x]);
  }

  /** Dropping the last element of a list without repeats leaves one without repeats, lacking that element. */
  lemma DistinctInit<T>(s: seq<T>)
    requires Distinct(s) && |s| > 0
    ensures Distinct(s[..|s| - 1]) && s[|s| - 1] !in s[..|s| - 1]
  {
    var init := s[..|s| - 1];
    forall j | 0 <= j < |init| ensures init[j] != s[|s| - 1] {
      assert init[j] == s[j];
    }
  }

  /** Taking the head of pool `v` into play keeps every ball in exactly one place. */
  lemma PollKeepsExclusive(pools: PoolMap, inPlay: seq<Ball>, v: Variant)
    requires WellKeyed(pools) && ExclusiveOf(pools, inPlay) && pools[v] != []
    ensures ExclusiveOf(Poll(pools, v).1, inPlay + [pools[v][0]])
  {
    var rest, head := Poll(pools, v).1, pools[v][0];
    DistinctAppend(inPlay, head);
    forall u | u in rest ensures Distinct(rest[u]) {
      if u == v {
        forall i, j | 0 <= i < j < |rest[u]| ensures rest[u][i] != rest[u][j] {
          assert rest[u][i] == pools[v][i + 1] && rest[u][j] == pools[v][j + 1];
        }
      }
    }
    forall u, i | u in rest && 0 <= i < |rest[u]| ensures rest[u][i] !in inPlay + [head] {
      if u == v {
        assert rest[u][i] == pools[v][i + 1];
      } else {
        assert rest[u][i] == pools[u][i];
      }
    }
  }

  /** Taking balls from the pools into play keeps every ball in exactly one place. */
  lemma {:induction false} TakeAllKeepsExclusive(pools: PoolMap, inPlay: seq<Ball>, vs: seq<Variant>)
    requires WellKeyed(pools) && ExclusiveOf(pools, inPlay)
    requires forall v :: multiset(vs)[v] <= |pools[v]|
    ensures ExclusiveOf(TakeAll(pools, vs).1, inPlay + TakeAll(pools, vs).0)
    decreases |vs|
  {
    if vs == [] {
      assert inPlay + [] == inPlay;
    } else {
      TakeAllStep(pools, vs);
      var v, later := vs[0], vs[1..];
      var rest, head := Poll(pools, v).1, pools[v][0];
      PollKeepsExclusive(pools, inPlay, v);
      TakeAllKeepsExclusive(rest, inPlay + [head], later);
      AppendAssoc(inPlay, [head], TakeAll(rest, later).0);
    }
  }

  /** Taking balls from the pools into play neither loses nor makes a ball. */
  lemma TakeAllKeepsPopulation(pools: PoolMap, inPlay: seq<Ball>, vs: seq<Variant>)
    requires WellKeyed(pools)
    requires forall v :: multiset(vs)[v] <= |pools[v]|
    ensures PopulationOf(TakeAll(pools, vs).1, inPlay + TakeAll(pools, vs).0) == PopulationOf(pools, inPlay)
  {
    var (taken, rest) := TakeAll(pools, vs);
    TakeAllConserves(pools, vs);
    assert multiset(inPlay + taken) == multiset(inPlay) + multiset(taken);
    MultisetRegroup(Pooled(rest), multiset(taken), multiset(inPlay), Pooled(pools), Pooled(pools) + multiset(inPlay));
  }

  /** Adding a ball the game did not know of to its pool keeps every ball in exactly one place. */
  lemma OfferKeepsExclusive(pools: PoolMap, inPlay: seq<Ball>, b: Ball)
    requires WellKeyed(pools) && ExclusiveOf(pools, inPlay)
    requires b !in inPlay
    requires forall u, i :: u in pools && 0 <= i < |pools[u]| ==> pools[u][i] != b
    ensures ExclusiveOf(Offer(pools, b), inPlay)
  {
    DistinctAppend(pools[b.variant], b);
  }

  /** The balls of `bs` flagged as missed, in list order. */
  function Missed(bs: seq<Ball>): (r: seq<Ball>)
    reads set b | b in bs
    ensures forall i :: 0 <= i < |r| ==> r[i] in bs && r[i].wasMissed
    ensures forall i :: 0 <= i < |bs| && bs[i].wasMissed ==> bs[i] in r
  {
    if bs == [] then []
    else
      var last := bs[|bs| - 1];
      Missed(bs[..|bs| - 1]) + (if last.wasMissed then [last] else [])
  }

  /** The balls of `bs` not flagged as missed, in list order. */
  function Unmissed(bs: seq<Ball>): (r: seq<Ball>)
    reads set b | b in bs
    ensures forall i :: 0 <= i < |r| ==> r[i] in bs && !r[i].wasMissed
    ensures forall i :: 0 <= i < |bs| && !bs[i].wasMissed ==> bs[i] in r
  {
    if bs == [] then []
    else
      var last := bs[|bs| - 1];
      Unmissed(bs[..|bs| - 1]) + (if last.wasMissed then [] else [last])
  }

  /** Java's `List.removeAll`: every occurrence in `bs` of a ball listed in `removed` goes. */
  function RemoveAll(bs: seq<Ball>, removed: seq<Ball>): (r: seq<Ball>)
    ensures forall i :: 0 <= i < |r| ==> r[i] in bs && r[i] !in removed
    ensures forall i :: 0 <= i < |bs| && bs[i] !in removed ==> bs[i] in r
  {
    if bs == [] then []
    else
      var last := bs[|bs| - 1];
      RemoveAll(bs[..|bs| - 1], removed) + (if last in removed then [] else [last])
  }

  /** Every ball is either missed or not: the two filters split the list. */
  lemma {:induction false} MissedPartition(bs: seq<Ball>)
    ensures multiset(Missed(bs)) + multiset(Unmissed(bs)) == multiset(bs)
  {
    if bs != [] {
      var init, last := bs[..|bs| - 1], bs[|bs| - 1];
      MissedPartition(init);
      assert bs == init + [last];
    }
  }

  /** Removing a list that holds exactly the missed balls keeps exactly the unmissed ones, in order. */
  lemma {:induction false} RemoveAllMissed(bs: seq<Ball>, removed: seq<Ball>)
    requires forall i :: 0 <= i < |bs| ==> (bs[i] in removed <==> bs[i].wasMissed)
    ensures RemoveAll(bs, removed) == Unmissed(bs)
  {
    if bs != [] {
      RemoveAllMissed(bs[..|bs| - 1], removed);
    }
  }

  lemma {:induction false} MissedDistinct(bs: seq<Ball>)
    requires Distinct(bs)
    ensures Distinct(Missed(bs))
  {
    if bs != [] {
      var init, last := bs[..|bs| - 1], bs[|bs| - 1];
      DistinctInit(bs);
      MissedDistinct(init);
      if last.wasMissed {
        DistinctAppend(Missed(init), last);
      }
    }
  }

  lemma {:induction false} UnmissedDistinct(bs: seq<Ball>)
    requires Distinct(bs)
    ensures Distinct(Unmissed(bs))
  {
    if bs != [] {
      var init, last := bs[..|bs| - 1], bs[|bs| - 1];
      DistinctInit(bs);
      UnmissedDistinct(init);
      if !last.wasMissed {
        DistinctAppend(Unmissed(init), last);
      }
    }
  }

  lemma {:induction false} OfVariantDistinct(bs: seq<Ball>, v: Variant)
    requires Distinct(bs)
    ensures Distinct(OfVariant(bs, v))
  {
    if bs != [] {
      var init, last := bs[..|bs| - 1], bs[|bs| - 1];
      DistinctInit(bs);
      OfVariantDistinct(init, v);
      if last.variant == v {
        DistinctAppend(OfVariant(init, v), last);
      }
    }
  }

  /** Returning the missed balls to the pools keeps every ball in exactly one place. */
  lemma ReturnKeepsExclusive(pools: PoolMap, bs: seq<Ball>)
    requires WellKeyed(pools) && ExclusiveOf(pools, bs)
    ensures ExclusiveOf(OfferAll(pools, Missed(bs)), Unmissed(bs))
  {
    var missed, kept := Missed(bs), Unmissed(bs);
    var after := OfferAll(pools, missed);
    MissedDistinct(bs);
    UnmissedDistinct(bs);
    OfferAllContents(pools, missed);
    forall v | v in after ensures Distinct(after[v]) {
      var extra := OfVariant(missed, v);
      OfVariantDistinct(missed, v);
      forall i, j | 0 <= i < |pools[v]| && 0 <= j < |extra| ensures pools[v][i] != extra[j] {
        assert extra[j] in missed;
        assert extra[j] in bs;
      }
      DistinctConcat(pools[v], extra);
    }
    forall v, i | v in after && 0 <= i < |after[v]| ensures after[v][i] !in kept {
      if i < |pools[v]| {
        assert after[v][i] == pools[v][i];
      } else {
        assert after[v][i] == OfVariant(missed, v)[i - |pools[v]|];
        assert after[v][i] in missed;
      }
    }
  }

  /** Returning the missed balls to the pools neither loses nor makes a ball. */
  lemma ReturnKeepsPopulation(pools: PoolMap, bs: seq<Ball>)
    requires WellKeyed(pools)
    ensures PopulationOf(OfferAll(pools, Missed(bs)), Unmissed(bs)) == PopulationOf(pools, bs)
  {
    var missed, kept := Missed(bs), Unmissed(bs);
    PooledOfferAll(pools, missed);
    MissedPartition(bs);
    MultisetRegroup(Pooled(pools), multiset(missed), multiset(kept), Pooled(OfferAll(pools, missed)),
                    Pooled(pools) + multiset(bs));
  }

  /** Taking balls from the pools into play keeps every ball in the field. */
  lemma TakeAllKeepsInField(pools: PoolMap, inPlay: seq<Ball>, vs: seq<Variant>, boundsX: int, boundsY: int)
    requires WellKeyed(pools) && InField(pools, inPlay, boundsX, boundsY)
    requires forall v :: multiset(vs)[v] <= |pools[v]|
    ensures InField(TakeAll(pools, vs).1, inPlay + TakeAll(pools, vs).0, boundsX, boundsY)
  {
    TakeAllKeepsPopulation(pools, inPlay, vs);
    InFieldSamePopulation(pools, inPlay, TakeAll(pools, vs).1, inPlay + TakeAll(pools, vs).0, boundsX, boundsY);
  }

  /** Returning the missed balls to the pools keeps every ball in the field. */
  lemma ReturnKeepsInField(pools: PoolMap, bs: seq<Ball>, boundsX: int, boundsY: int)
    requires WellKeyed(pools) && InField(pools, bs, boundsX, boundsY)
    ensures InField(OfferAll(pools, Missed(bs)), Unmissed(bs), boundsX, boundsY)
  {
    ReturnKeepsPopulation(pools, bs);
    InFieldSamePopulation(pools, bs, OfferAll(pools, Missed(bs)), Unmissed(bs), boundsX, boundsY);
  }

  /**
   * The pools `pools` part-way through a supply pass that started from `pools0` (holding
   * `counts` balls) and has visited the first `k` variants of `order`: each visited pool is
   * topped up, each other pool keeps its size, and every pool still starts with what it held.
   */
  ghost predicate PoolsSupplied(order: seq<Variant>, counts: map<Variant, int>, k: int, pools0: PoolMap, pools: PoolMap) {
    && 0 <= k <= |order|
    && (forall u :: u in counts && u in pools0 && u in pools && counts[u] == |pools0[u]|)
    && (forall j :: 0 <= j < |order| ==>
          |pools[order[j]]| == if j < k then ToppedUp(counts[order[j]]) else counts[order[j]])
    && (forall u :: pools0[u] <= pools[u])
  }

  /** The next pool to visit still holds what it held when the pass began. */
  lemma PoolsSuppliedNext(order: seq<Variant>, counts: map<Variant, int>, k: int, pools0: PoolMap, pools: PoolMap)
    requires PoolsSupplied(order, counts, k, pools0, pools) && k < |order|
    ensures |pools[order[k]]| == counts[order[k]]
  {
  }

  /** Topping up the next pool of `order`, and only it, moves the pass one variant on. */
  lemma PoolsSuppliedStep(order: seq<Variant>, counts: map<Variant, int>, k: int,
                          pools0: PoolMap, before: PoolMap, after: PoolMap)
    requires PoolsSupplied(order, counts, k, pools0, before) && k < |order| && Distinct(order)
    requires forall u :: u in after
    requires before[order[k]] <= after[order[k]]
    requires |after[order[k]]| == ToppedUp(counts[order[k]])
    requires forall u :: u != order[k] ==> after[u] == before[u]
    ensures PoolsSupplied(order, counts, k + 1, pools0, after)
  {
    forall j | 0 <= j < |order|
      ensures |after[order[j]]| == if j < k + 1 then ToppedUp(counts[order[j]]) else counts[order[j]]
    {
      if j != k {
        assert order[j] != order[k];
      }
    }
    forall u ensures pools0[u] <= after[u] {
      assert before[u] <= after[u];
    }
  }

  /** After a supply pass from `pools0`: every pool keeps its balls in front and is topped up. */
  ghost predicate ToppedUpFrom(pools0: PoolMap, pools: PoolMap) {
    forall u :: u in pools0 && u in pools && pools0[u] <= pools[u] && |pools[u]| == ToppedUp(|pools0[u]|)
  }

  /** Once every variant is visited, every pool is topped up and keeps its old balls in front. */
  lemma PoolsSuppliedDone(order: seq<Variant>, counts: map<Variant, int>, pools0: PoolMap, pools: PoolMap)
    requires PoolsSupplied(order, counts, |order|, pools0, pools)
    requires forall v :: v in order
    ensures ToppedUpFrom(pools0, pools)
  {
    forall u ensures |pools[u]| == ToppedUp(|pools0[u]|) {
      assert u in order;
      var j :| 0 <= j < |order| && order[j] == u;
    }
  }

  /** After a supply pass every pool holds at least five balls, enough for any spawn. */
  lemma ToppedUpSpawns(pools0: PoolMap, pools: PoolMap, hardMode: bool, d1: SpawnDraw, d2: SpawnDraw)
    requires ToppedUpFrom(pools0, pools)
    requires 0 <= d1.size < 3 && 0 <= d2.size < 3
    ensures forall v :: multiset(SpawnVariants(hardMode, d1, d2))[v] <= |pools[v]|
  {
    forall v ensures multiset(SpawnVariants(hardMode, d1, d2))[v] <= |pools[v]| {
      SpawnVariantsAtMostTwo(hardMode, d1, d2, v);
    }
  }

  class PongModel {
    const boundsX: int
    const boundsY: int
    const paddleWidth: int
    const paddleHeight: int
    const paddle1InitialX: int
    const paddle2InitialX: int
    const paddlesInitialY: int
    const paddle1: Paddle
    const paddle2: Paddle
    const ballPool: BallPoolService
    const easyBallFactory: BallFactory
    const hardBallFactory: BallFactory
    var currentLevel: int
    var elapsedSeconds: int
    /** The start time of the game, in milliseconds. */
    var gameTimer: int
    var hardMode: bool
    var balls: seq<Ball>
    /** One entry per production task ever submitted, in submission order; never cleared. */
    var producerTasks: seq<Variant>

    /** Every ball the game knows of: those waiting in the registry and those in play. */
    ghost function Population(): multiset<Ball>
      reads this, ballPool
    {
      PopulationOf(ballPool.pools, balls)
    }

    ghost predicate Valid()
      reads this, ballPool
    {
      && ballPool.Valid()
      && ballPool.boundsX == boundsX && ballPool.boundsY == boundsY
      && easyBallFactory.ballPool == ballPool && easyBallFactory.difficulty == Easy
      && hardBallFactory.ballPool == ballPool && hardBallFactory.difficulty == Hard
      // both factories launch from the same point, the centre of the field
      && easyBallFactory.middleX == hardBallFactory.middleX
      && easyBallFactory.middleY == hardBallFactory.middleY
      && easyBallFactory != hardBallFactory
      && paddle1 != paddle2
      // the paddles and every ball move within the model's own field
      && paddle1.floor == boundsY && paddle2.floor == boundsY
      && InField(ballPool.pools, balls, boundsX, boundsY)
      && (hardMode <==> currentLevel > AmountOfEasyLevels)
    }

    /** Every ball the game knows of sits in exactly one place: one pool slot or one place in play. */
    ghost predicate Exclusive()
      reads this, ballPool
    {
      ExclusiveOf(ballPool.pools, balls)
    }

    constructor (boundsX: int, boundsY: int)
      ensures Valid() && Exclusive()
      ensures this.boundsX == boundsX && this.boundsY == boundsY
      ensures paddleWidth == JavaDiv(boundsX, PaddleWidthFraction)
      ensures paddleHeight == JavaDiv(boundsY, PaddleHeightFraction)
      ensures paddle1InitialX == 0 && paddle2InitialX == boundsX - paddleWidth
      ensures paddlesInitialY == JavaDiv(boundsY, 2) - JavaDiv(paddleHeight, 2)
      ensures fresh(paddle1) && fresh(paddle2) && fresh(ballPool)
      ensures fresh(easyBallFactory) && fresh(hardBallFactory)
      ensures easyBallFactory.middleX == JavaDiv(boundsX, 2) && easyBallFactory.middleY == JavaDiv(boundsY, 2)
      ensures paddle1.floor == boundsY && paddle2.floor == boundsY
      ensures paddle1.yVelocity == 0 && paddle2.yVelocity == 0
      ensures paddle1.paddleSpeed == PaddleSpeed && paddle2.paddleSpeed == PaddleSpeed
      ensures currentLevel == 0 && elapsedSeconds == 0 && gameTimer == 0 && !hardMode
      ensures balls == [] && producerTasks == []
      ensures forall v :: ballPool.pools[v] == []
    {
      this.boundsX := boundsX;
      this.boundsY := boundsY;
      var width := JavaDiv(boundsX, PaddleWidthFraction);
      var height := JavaDiv(boundsY, PaddleHeightFraction);
      paddleWidth := width;
      paddleHeight := height;
      paddle1InitialX := 0;
      paddle2InitialX := boundsX - width;
      paddlesInitialY := JavaDiv(boundsY, 2) - JavaDiv(height, 2);
      paddle1 := new Paddle(boundsY);
      paddle2 := new Paddle(boundsY);
      var pool := new BallPoolService(boundsX, boundsY);
      ballPool := pool;
      easyBallFactory := new BallFactory(Easy, pool, boundsX, boundsY);
      hardBallFactory := new BallFactory(Hard, pool, boundsX, boundsY);
      currentLevel, elapsedSeconds, gameTimer, hardMode := 0, 0, 0, false;
      balls := [];
      producerTasks := [];
    }

    /** Puts the paddles at their starting places and sizes, and goes back to level 1, easy mode. */
    method ResetState()
      requires Valid()
      modifies paddle1`x, paddle1`y, paddle1`width, paddle1`height
      modifies paddle2`x, paddle2`y, paddle2`width, paddle2`height
      modifies this`currentLevel, this`hardMode
      ensures Valid()
      ensures paddle1.x == paddle1InitialX && paddle1.y == paddlesInitialY
      ensures paddle1.width == paddleWidth && paddle1.height == paddleHeight
      ensures paddle2.x == paddle2InitialX && paddle2.y == paddlesInitialY
      ensures paddle2.width == paddleWidth && paddle2.height == paddleHeight
      ensures currentLevel == 1 && !hardMode
    {
      paddle1.SetX(paddle1InitialX);
      paddle1.SetY(paddlesInitialY);
      paddle1.SetWidth(paddleWidth);
      paddle1.SetHeight(paddleHeight);

      paddle2.SetX(paddle2InitialX);
      paddle2.SetY(paddlesInitialY);
      paddle2.SetWidth(paddleWidth);
      paddle2.SetHeight(paddleHeight);

      currentLevel := 1;
      hardMode := false;
    }

    /**
     * Submits one production task for `v` (ThreadPoolManager.execute with a ProducerTask):
     * the task is logged and runs at once, appending a new ball to pool `v`.
     */
    method ExecuteProducerTask(v: Variant)
      requires Valid() && Exclusive()
      modifies this`producerTasks, ballPool
      ensures Valid() && Exclusive()
      ensures producerTasks == old(producerTasks) + [v]
      ensures |ballPool.pools[v]| == old(|ballPool.pools[v]|) + 1
      ensures fresh(ballPool.pools[v][|ballPool.pools[v]| - 1])
      ensures ballPool.pools == Offer(old(ballPool.pools), ballPool.pools[v][|ballPool.pools[v]| - 1])
    {
      producerTasks := producerTasks + [v];
      var ok := ballPool.ProduceBall(v, false);
      ghost var b := ballPool.pools[v][|ballPool.pools[v]| - 1];
      OfferKeepsExclusive(old(ballPool.pools), balls, b);
    }

    /** Submits the five production tasks of one batch for `v`, one after another. */
    method ProduceBatch(v: Variant)
      requires Valid() && Exclusive()
      modifies this`producerTasks, ballPool
      ensures Valid() && Exclusive()
      ensures producerTasks == old(producerTasks) + Batch(v, BallPoolNewBallsBatchAmount)
      ensures old(ballPool.pools[v]) <= ballPool.pools[v]
      ensures |ballPool.pools[v]| == old(|ballPool.pools[v]|) + BallPoolNewBallsBatchAmount
      ensures forall u :: u != v ==> ballPool.pools[u] == old(ballPool.pools[u])
      ensures forall i :: old(|ballPool.pools[v]|) <= i < |ballPool.pools[v]| ==> fresh(ballPool.pools[v][i])
    {
      var i := 0;
      while i < BallPoolNewBallsBatchAmount
        invariant 0 <= i <= BallPoolNewBallsBatchAmount
        invariant Valid() && Exclusive()
        invariant producerTasks == old(producerTasks) + Batch(v, i)
        invariant old(ballPool.pools[v]) <= ballPool.pools[v]
        invariant |ballPool.pools[v]| == old(|ballPool.pools[v]|) + i
        invariant forall u :: u != v ==> ballPool.pools[u] == old(ballPool.pools[u])
        invariant forall j :: old(|ballPool.pools[v]|) <= j < |ballPool.pools[v]| ==> fresh(ballPool.pools[v][j])
      {
        ExecuteProducerTask(v);
        i := i + 1;
      }
    }

    /**
     * One pool's turn in a supply pass: five production tasks when it held `count < 10`
     * balls, and the task flag raised once any pool has needed them.
     */
    method SupplyPool(v: Variant, count: int, issued: bool) returns (issuedNow: bool)
      requires Valid() && Exclusive()
      requires count == |ballPool.pools[v]|
      modifies this`producerTasks, ballPool
      ensures Valid() && Exclusive()
      ensures producerTasks
              == old(producerTasks)
                 + (if count < BallPoolMinimumBalls then Batch(v, BallPoolNewBallsBatchAmount) else [])
      ensures issuedNow <==> issued || count < BallPoolMinimumBalls
      ensures old(ballPool.pools[v]) <= ballPool.pools[v]
      ensures |ballPool.pools[v]| == ToppedUp(count)
      ensures forall u :: u != v ==> ballPool.pools[u] == old(ballPool.pools[u])
      ensures forall i :: count <= i < |ballPool.pools[v]| ==> fresh(ballPool.pools[v][i])
    {
      issuedNow := issued;
      if count < BallPoolMinimumBalls {
        ProduceBatch(v);
        if !issuedNow {
          issuedNow := true;
        }
      } else {
        assert producerTasks + [] == producerTasks;
      }
    }

    /**
     * Makes sure every pool gets balls: for each pool holding fewer than ten, five production
     * tasks are submitted. The pools are visited in `order`, the iteration order of the
     * registry's count map, which the source leaves to the hash map. Reports whether any task
     * was submitted.
     */
    method EnsureBallSupply(order: seq<Variant>) returns (tasksWereIssued: bool)
      requires Distinct(order) && forall v :: v in order
      requires Valid() && Exclusive()
      modifies this`producerTasks, ballPool
      ensures Valid() && Exclusive()
      ensures producerTasks
              == old(producerTasks) + SupplyRequests(old(ballPool.AmountOfAvailableBalls()), order, |order|)
      ensures tasksWereIssued <==> |producerTasks| > old(|producerTasks|)
      ensures tasksWereIssued <==> exists v :: old(|ballPool.pools[v]|) < BallPoolMinimumBalls
      ensures ToppedUpFrom(old(ballPool.pools), ballPool.pools)
      ensures fresh(PooledSet(ballPool.pools) - old(PooledSet(ballPool.pools)))
    {
      var counts := ballPool.AmountOfAvailableBalls();
      ghost var oldPools := ballPool.pools;
      tasksWereIssued := false;
      var k := 0;
      while k < |order|
        invariant 0 <= k <= |order|
        invariant Valid() && Exclusive()
        invariant PoolsSupplied(order, counts, k, oldPools, ballPool.pools)
        invariant forall u, i :: |oldPools[u]| <= i < |ballPool.pools[u]| ==> fresh(ballPool.pools[u][i])
        invariant producerTasks == old(producerTasks) + SupplyRequests(counts, order, k)
        invariant tasksWereIssued <==> |producerTasks| > old(|producerTasks|)
      {
        var v := order[k];
        ghost var before := ballPool.pools;
        PoolsSuppliedNext(order, counts, k, oldPools, before);
        tasksWereIssued := SupplyPool(v, counts[v], tasksWereIssued);
        PoolsSuppliedStep(order, counts, k, oldPools, before, ballPool.pools);
        forall u, i | |oldPools[u]| <= i < |ballPool.pools[u]|
          ensures fresh(ballPool.pools[u][i])
        {
          if u != v || i < |before[v]| {
            assert ballPool.pools[u][i] == before[u][i];
          }
        }
        AppendAssoc(old(producerTasks), SupplyRequests(counts, order, k),
                    if counts[v] < BallPoolMinimumBalls then Batch(v, BallPoolNewBallsBatchAmount) else []);
        k := k + 1;
      }
      PoolsSuppliedDone(order, counts, oldPools, ballPool.pools);
      SupplyRequestsIssuedAll(counts, order);
      forall b | b in PooledSet(ballPool.pools) - PooledSet(oldPools) ensures fresh(b) {
        var u, i :| u in ballPool.pools && 0 <= i < |ballPool.pools[u]| && ballPool.pools[u][i] == b;
      }
    }

    /**
     * Puts new balls into play from the centre at the current level's speed: two hard balls
     * in hard mode, else one easy ball. Each is the head of the pool of its variant.
     */
    method AddBallsToGame(d1: SpawnDraw, d2: SpawnDraw)
      requires Valid() && Exclusive()
      requires 0 <= d1.size < 3 && 0 <= d2.size < 3
      requires forall v :: multiset(SpawnVariants(hardMode, d1, d2))[v] <= |ballPool.pools[v]|
      modifies this`balls, ballPool, easyBallFactory`level, hardBallFactory`level
      modifies SpawnHeads(ballPool.pools, hardMode, d1, d2)`x,
               SpawnHeads(ballPool.pools, hardMode, d1, d2)`y
      modifies SpawnHeads(ballPool.pools, hardMode, d1, d2)`xVelocity
      modifies SpawnHeads(ballPool.pools, hardMode, d1, d2)`yVelocity
      ensures Valid() && Exclusive()
      ensures var spawned := old(TakeAll(ballPool.pools, SpawnVariants(hardMode, d1, d2)));
              balls == old(balls) + spawned.0 && ballPool.pools == spawned.1
      ensures old(balls) <= balls
      ensures VariantsOf(balls) == VariantsOf(old(balls)) + SpawnVariants(hardMode, d1, d2)
      ensures hardMode ==> hardBallFactory.level == currentLevel
      ensures !hardMode ==> easyBallFactory.level == currentLevel
      ensures forall j :: old(|balls|) <= j < |balls| ==>
                LaunchedFrom(balls[j], easyBallFactory.middleX, easyBallFactory.middleY, currentLevel)
    {
      VariantsOfTaken(ballPool.pools, balls, SpawnVariants(hardMode, d1, d2));
      if hardMode {
        AddHardBalls(d1, d2);
      } else {
        assert SpawnVariants(hardMode, d1, d2) == [Variant(Easy, DrawnSize(d1))];
        AddEasyBall(d1);
      }
    }

    /** The hard-mode spawn: the hard factory set to the current level, two balls. */
    method AddHardBalls(d1: SpawnDraw, d2: SpawnDraw)
      requires Valid() && Exclusive() && hardMode
      requires 0 <= d1.size < 3 && 0 <= d2.size < 3
      requires forall v :: multiset(SpawnVariants(true, d1, d2))[v] <= |ballPool.pools[v]|
      modifies this`balls, ballPool, hardBallFactory`level
      modifies Head(ballPool.pools, Variant(Hard, DrawnSize(d1)))`x,
               Head(ballPool.pools, Variant(Hard, DrawnSize(d1)))`y,
               Head(ballPool.pools, Variant(Hard, DrawnSize(d1)))`xVelocity,
               Head(ballPool.pools, Variant(Hard, DrawnSize(d1)))`yVelocity
      modifies Head(Poll(ballPool.pools, Variant(Hard, DrawnSize(d1))).1, Variant(Hard, DrawnSize(d2)))`x,
               Head(Poll(ballPool.pools, Variant(Hard, DrawnSize(d1))).1, Variant(Hard, DrawnSize(d2)))`y,
               Head(Poll(ballPool.pools, Variant(Hard, DrawnSize(d1))).1, Variant(Hard, DrawnSize(d2)))`xVelocity,
               Head(Poll(ballPool.pools, Variant(Hard, DrawnSize(d1))).1, Variant(Hard, DrawnSize(d2)))`yVelocity
      ensures Valid() && Exclusive()
      ensures var spawned := old(TakeAll(ballPool.pools, SpawnVariants(true, d1, d2)));
              balls == old(balls) + spawned.0 && ballPool.pools == spawned.1
      ensures hardBallFactory.level == currentLevel
      ensures forall j :: old(|balls|) <= j < |balls| ==>
                LaunchedFrom(balls[j], easyBallFactory.middleX, easyBallFactory.middleY, currentLevel)
    {
      TakeAllKeepsExclusive(ballPool.pools, balls, SpawnVariants(true, d1, d2));
      TakeAllKeepsInField(ballPool.pools, balls, SpawnVariants(true, d1, d2), boundsX, boundsY);
      hardBallFactory.SetLevel(currentLevel);
      TakeAllTwo(ballPool.pools, Variant(Hard, DrawnSize(d1)), Variant(Hard, DrawnSize(d2)));
      AddTwoBalls(hardBallFactory, d1, d2);
    }

    /** The easy-mode spawn: the easy factory set to the current level, one ball. */
    method AddEasyBall(d1: SpawnDraw)
      requires Valid() && Exclusive() && !hardMode
      requires 0 <= d1.size < 3
      requires ballPool.pools[Variant(Easy, DrawnSize(d1))] != []
      modifies this`balls, ballPool, easyBallFactory`level
      modifies Head(ballPool.pools, Variant(Easy, DrawnSize(d1)))`x,
               Head(ballPool.pools, Variant(Easy, DrawnSize(d1)))`y,
               Head(ballPool.pools, Variant(Easy, DrawnSize(d1)))`xVelocity,
               Head(ballPool.pools, Variant(Easy, DrawnSize(d1)))`yVelocity
      ensures Valid() && Exclusive()
      ensures var spawned := old(TakeAll(ballPool.pools, [Variant(Easy, DrawnSize(d1))]));
              balls == old(balls) + spawned.0 && ballPool.pools == spawned.1
      ensures easyBallFactory.level == currentLevel
      ensures forall j :: old(|balls|) <= j < |balls| ==>
                LaunchedFrom(balls[j], easyBallFactory.middleX, easyBallFactory.middleY, currentLevel)
    {
      TakeAllOne(ballPool.pools, Variant(Easy, DrawnSize(d1)));
      TakeAllKeepsExclusive(ballPool.pools, balls, [Variant(Easy, DrawnSize(d1))]);
      TakeAllKeepsInField(ballPool.pools, balls, [Variant(Easy, DrawnSize(d1))], boundsX, boundsY);
      easyBallFactory.SetLevel(currentLevel);
      var first := AddFromFactory(easyBallFactory, d1);
    }

    /** The hard-mode spawn: two balls from `factory`, one per draw, in draw order. */
    method AddTwoBalls(factory: BallFactory, d1: SpawnDraw, d2: SpawnDraw)
      requires factory.ballPool == ballPool && ballPool.Valid()
      requires 0 <= d1.size < 3 && 0 <= d2.size < 3
      requires forall v :: multiset([Variant(factory.difficulty, DrawnSize(d1)),
                                     Variant(factory.difficulty, DrawnSize(d2))])[v] <= |ballPool.pools[v]|
      modifies this`balls, ballPool
      modifies Head(ballPool.pools, Variant(factory.difficulty, DrawnSize(d1)))`x,
               Head(ballPool.pools, Variant(factory.difficulty, DrawnSize(d1)))`y,
               Head(ballPool.pools, Variant(factory.difficulty, DrawnSize(d1)))`xVelocity,
               Head(ballPool.pools, Variant(factory.difficulty, DrawnSize(d1)))`yVelocity
      modifies Head(Poll(ballPool.pools, Variant(factory.difficulty, DrawnSize(d1))).1, Variant(factory.difficulty, DrawnSize(d2)))`x,
               Head(Poll(ballPool.pools, Variant(factory.difficulty, DrawnSize(d1))).1, Variant(factory.difficulty, DrawnSize(d2)))`y,
               Head(Poll(ballPool.pools, Variant(factory.difficulty, DrawnSize(d1))).1, Variant(factory.difficulty, DrawnSize(d2)))`xVelocity,
               Head(Poll(ballPool.pools, Variant(factory.difficulty, DrawnSize(d1))).1, Variant(factory.difficulty, DrawnSize(d2)))`yVelocity
      ensures ballPool.Valid()
      ensures var spawned := old(TakeAll(ballPool.pools, [Variant(factory.difficulty, DrawnSize(d1)),
                                                          Variant(factory.difficulty, DrawnSize(d2))]));
              balls == old(balls) + spawned.0 && ballPool.pools == spawned.1
      ensures forall j :: old(|balls|) <= j < |balls| ==>
                LaunchedFrom(balls[j], factory.middleX, factory.middleY, factory.level)
    {
      ghost var v1, v2 := Variant(factory.difficulty, DrawnSize(d1)), Variant(factory.difficulty, DrawnSize(d2));
      TakeAllTwo(ballPool.pools, v1, v2);
      var first := AddFromFactory(factory, d1);
      var second := AddFromFactory(factory, d2);
      // both come from the same factory, so taking the second cannot undo the first's launch
      assert first == second || LaunchedFrom(first, factory.middleX, factory.middleY, factory.level);
      AppendTwo(old(balls), first, second);
    }

    /**
     * One `balls.add(factory.createBallOfRandomSize())`: the head of the pool of the factory's
     * difficulty and the drawn size goes into play, at the end of the list.
     */
    method AddFromFactory(factory: BallFactory, d: SpawnDraw) returns (ball: Ball)
      requires factory.ballPool == ballPool && ballPool.Valid()
      requires 0 <= d.size < 3
      requires ballPool.pools[Variant(factory.difficulty, DrawnSize(d))] != []
      modifies this`balls, ballPool
      modifies Head(ballPool.pools, Variant(factory.difficulty, DrawnSize(d)))`x,
               Head(ballPool.pools, Variant(factory.difficulty, DrawnSize(d)))`y,
               Head(ballPool.pools, Variant(factory.difficulty, DrawnSize(d)))`xVelocity,
               Head(ballPool.pools, Variant(factory.difficulty, DrawnSize(d)))`yVelocity
      ensures ballPool.Valid()
      ensures ball == old(ballPool.pools[Variant(factory.difficulty, DrawnSize(d))][0])
      ensures ballPool.pools == old(Poll(ballPool.pools, Variant(factory.difficulty, DrawnSize(d))).1)
      ensures balls == old(balls) + [ball]
      ensures LaunchedFrom(ball, factory.middleX, factory.middleY, factory.level)
    {
      var created := factory.CreateBallOfRandomSize(d);
      ball := created.value;
      balls := balls + [ball];
    }

    /** One movement step of every ball in play, each with its own pair of draws. */
    method MoveBalls(xDraws: seq<int>, yDraws: seq<int>)
      requires Valid() && Exclusive()
      requires |xDraws| == |balls| && |yDraws| == |balls|
      requires forall i :: 0 <= i < |balls| ==> 0 <= xDraws[i] < 2 && 0 <= yDraws[i] < 2
      modifies set b | b in balls
      ensures forall i :: 0 <= i < |balls| ==>
                balls[i].State() == Step(old(balls[i].State()), balls[i].variant, boundsX, boundsY,
                                         BoxOf(paddle1), BoxOf(paddle2), xDraws[i], yDraws[i])
    {
      var i := 0;
      while i < |balls|
        invariant 0 <= i <= |balls|
        invariant forall j :: 0 <= j < i ==>
                    balls[j].State() == Step(old(balls[j].State()), balls[j].variant, boundsX, boundsY,
                                             BoxOf(paddle1), BoxOf(paddle2), xDraws[j], yDraws[j])
        invariant forall j :: i <= j < |balls| ==> balls[j].State() == old(balls[j].State())
      {
        balls[i].MoveBall(paddle1, paddle2, xDraws[i], yDraws[i]);
        i := i + 1;
      }
    }

    /** One movement step of each paddle. */
    method MovePaddles()
      requires Valid()
      modifies paddle1`y, paddle2`y
      ensures paddle1.y == NextPaddleY(old(paddle1.y), paddle1.yVelocity, boundsY, paddle1.height)
      ensures paddle2.y == NextPaddleY(old(paddle2.y), paddle2.yVelocity, boundsY, paddle2.height)
    {
      paddle1.MovePaddle();
      paddle2.MovePaddle();
    }

    /** Moves to the next level; hard mode starts once the level passes the last easy one. */
    method AdvanceLevel()
      requires Valid()
      modifies this`currentLevel, this`hardMode
      ensures Valid()
      ensures currentLevel == old(currentLevel) + 1
      ensures hardMode == (old(hardMode) || currentLevel > AmountOfEasyLevels)
    {
      currentLevel := currentLevel + 1;

      var shouldBeHardMode := currentLevel > AmountOfEasyLevels && !hardMode;
      if shouldBeHardMode {
        hardMode := true;
      }
    }

    /**
     * A supply pass over the pools in `order`, then the spawn of new balls for the current
     * mode; reports whether the supply pass submitted tasks. Both a level change and a game
     * start run these two steps in this order.
     */
    method SupplyAndSpawn(order: seq<Variant>, d1: SpawnDraw, d2: SpawnDraw) returns (issued: bool)
      requires Distinct(order) && forall v :: v in order
      requires Valid() && Exclusive()
      requires 0 <= d1.size < 3 && 0 <= d2.size < 3
      modifies this`producerTasks,
               this`balls,
               ballPool,
               easyBallFactory`level,
               hardBallFactory`level
      modifies PooledSet(ballPool.pools)`x, PooledSet(ballPool.pools)`y
      modifies PooledSet(ballPool.pools)`xVelocity, PooledSet(ballPool.pools)`yVelocity
      ensures Valid() && Exclusive()
      ensures issued <==> exists v :: old(|ballPool.pools[v]|) < BallPoolMinimumBalls
      ensures old(balls) <= balls
      ensures VariantsOf(balls) == VariantsOf(old(balls)) + SpawnVariants(hardMode, d1, d2)
      ensures forall j :: old(|balls|) <= j < |balls| ==>
                LaunchedFrom(balls[j], easyBallFactory.middleX, easyBallFactory.middleY, currentLevel)
    {
      ghost var pools0 := ballPool.pools;
      issued := EnsureBallSupply(order);
      ToppedUpSpawns(pools0, ballPool.pools, hardMode, d1, d2);
      SpawnHeadsPooled(ballPool.pools, hardMode, d1, d2);
      AddBallsToGame(d1, d2);
    }

    /** Goes up one level: the level and mode change, the pools get a supply pass, and new balls come into play. */
    method NextLevel(order: seq<Variant>, d1: SpawnDraw, d2: SpawnDraw)
      requires Distinct(order) && forall v :: v in order
      requires Valid() && Exclusive()
      requires 0 <= d1.size < 3 && 0 <= d2.size < 3
      modifies this`currentLevel, this`hardMode, this`producerTasks, this`balls
      modifies ballPool, easyBallFactory`level, hardBallFactory`level
      modifies PooledSet(ballPool.pools)`x, PooledSet(ballPool.pools)`y
      modifies PooledSet(ballPool.pools)`xVelocity, PooledSet(ballPool.pools)`yVelocity
      ensures Valid() && Exclusive()
      ensures currentLevel == old(currentLevel) + 1
      ensures hardMode == (old(hardMode) || currentLevel > AmountOfEasyLevels)
      ensures |balls| == old(|balls|) + (if hardMode then 2 else 1)
      ensures old(balls) <= balls
      ensures forall j :: old(|balls|) <= j < |balls| ==>
                balls[j].variant.difficulty == (if hardMode then Hard else Easy)
      ensures forall j :: old(|balls|) <= j < |balls| ==>
                LaunchedFrom(balls[j], easyBallFactory.middleX, easyBallFactory.middleY, currentLevel)
    {
      AdvanceLevel();
      var _ := SupplyAndSpawn(order, d1, d2);
    }

    /** Starts a new level when the elapsed seconds call for one; otherwise nothing changes. */
    method CheckIfNextLevel(order: seq<Variant>, d1: SpawnDraw, d2: SpawnDraw)
      requires Distinct(order) && forall v :: v in order
      requires Valid() && Exclusive()
      requires 0 <= d1.size < 3 && 0 <= d2.size < 3
      modifies this`currentLevel, this`hardMode, this`producerTasks, this`balls
      modifies ballPool, easyBallFactory`level, hardBallFactory`level
      modifies PooledSet(ballPool.pools)`x, PooledSet(ballPool.pools)`y
      modifies PooledSet(ballPool.pools)`xVelocity, PooledSet(ballPool.pools)`yVelocity
      ensures Valid() && Exclusive()
      ensures IsNextLevel(elapsedSeconds) ==>
                && currentLevel == old(currentLevel) + 1
                && hardMode == (old(hardMode) || currentLevel > AmountOfEasyLevels)
                && |balls| == old(|balls|) + (if hardMode then 2 else 1)
                && old(balls) <= balls
      ensures IsNextLevel(elapsedSeconds) ==>
                forall j :: old(|balls|) <= j < |balls| ==>
                  && balls[j].variant.difficulty == (if hardMode then Hard else Easy)
                  && LaunchedFrom(balls[j], easyBallFactory.middleX, easyBallFactory.middleY, currentLevel)
      ensures !IsNextLevel(elapsedSeconds) ==>
                && currentLevel == old(currentLevel) && hardMode == old(hardMode)
                && balls == old(balls) && ballPool.pools == old(ballPool.pools)
                && producerTasks == old(producerTasks)
                && easyBallFactory.level == old(easyBallFactory.level)
                && hardBallFactory.level == old(hardBallFactory.level)
                && unchanged(PooledSet(ballPool.pools))
    {
      var isNextLevel := elapsedSeconds != 0 && elapsedSeconds % TimeBetweenLevels == 0;
      if isNextLevel {
        NextLevel(order, d1, d2);
      }
    }

    /**
     * Starts a game: paddles and level reset, a supply pass, and one easy ball in play.
     * Reports whether the supply pass submitted tasks, which the source then waits for.
     */
    method SetInitialState(order: seq<Variant>, d1: SpawnDraw, d2: SpawnDraw) returns (awaited: bool)
      requires Distinct(order) && forall v :: v in order
      requires Valid() && Exclusive()
      requires 0 <= d1.size < 3 && 0 <= d2.size < 3
      modifies paddle1`x, paddle1`y, paddle1`width, paddle1`height
      modifies paddle2`x, paddle2`y, paddle2`width, paddle2`height
      modifies this`currentLevel, this`hardMode, this`producerTasks, this`balls
      modifies ballPool, easyBallFactory`level, hardBallFactory`level
      modifies PooledSet(ballPool.pools)`x, PooledSet(ballPool.pools)`y
      modifies PooledSet(ballPool.pools)`xVelocity, PooledSet(ballPool.pools)`yVelocity
      ensures Valid() && Exclusive()
      ensures currentLevel == 1 && !hardMode
      ensures paddle1.x == paddle1InitialX && paddle2.x == paddle2InitialX
      ensures paddle1.y == paddlesInitialY && paddle2.y == paddlesInitialY
      ensures paddle1.width == paddleWidth && paddle2.width == paddleWidth
      ensures paddle1.height == paddleHeight && paddle2.height == paddleHeight
      ensures awaited <==> exists v :: old(|ballPool.pools[v]|) < BallPoolMinimumBalls
      ensures |balls| == old(|balls|) + 1 && balls[..old(|balls|)] == old(balls)
      ensures var b := balls[|balls| - 1];
              && b.variant == Variant(Easy, DrawnSize(d1))
              && b.x == easyBallFactory.middleX && b.y == easyBallFactory.middleY
              && (b.xVelocity == 1 || b.xVelocity == -1) && (b.yVelocity == 1 || b.yVelocity == -1)
    {
      ResetState();
      awaited := false;
      var issued := SupplyAndSpawn(order, d1, d2);
      if issued {
        // Waiting for the submitted tasks returns at once: each has already run.
        awaited := true;
      }
    }

    /**
     * Takes every missed ball out of play and returns it to the registry, in list order. The
     * balls that stay keep their order.
     */
    method ReturnMissedBallsToPool()
      requires Valid() && Exclusive()
      modifies this`balls, ballPool
      ensures Valid() && Exclusive()
      ensures balls == old(Unmissed(balls))
      ensures ballPool.pools == OfferAll(old(ballPool.pools), old(Missed(balls)))
      ensures forall i :: 0 <= i < |balls| ==> !balls[i].wasMissed
    {
      ReturnKeepsExclusive(ballPool.pools, balls);
      ReturnKeepsInField(ballPool.pools, balls, boundsX, boundsY);
      var missedBalls := Missed(balls);
      RemoveAllMissed(balls, missedBalls);
      balls := RemoveAll(balls, missedBalls);
      ballPool.ReturnBalls(missedBalls);
    }

    method StartGameTimer(now: int)
      modifies this`gameTimer
      ensures gameTimer == now
    {
      gameTimer := now;
    }

    /**
     * Recomputes the elapsed whole seconds at time `now`; observers are notified exactly when
     * the value changes, which `notified` reports.
     */
    method UpdateElapsedSeconds(now: int) returns (notified: bool)
      modifies this`elapsedSeconds
      ensures elapsedSeconds == ElapsedSeconds(gameTimer, now)
      ensures notified <==> old(elapsedSeconds) != elapsedSeconds
    {
      var currentSeconds := ElapsedSeconds(gameTimer, now);
      notified := false;
      if elapsedSeconds != currentSeconds {
        elapsedSeconds := currentSeconds;
        notified := true;
      }
    }

    /** The game is over when no ball is in play: every ball the game knows of is back in the registry. */
    function IsGameOver(): (over: bool)
      reads this, ballPool
      ensures over <==> balls == []
      ensures over <==> Population() == ballPool.Contents()
    {
      assert |multiset(balls)| == |balls|;
      assert Population() == ballPool.Contents() + multiset(balls);
      balls == []
    }

    /**
     * The line writeResult has the chosen writer put in its file: the current level and the
     * elapsed seconds, which can be read back from it.
     */
    function ResultLine(choice: ResultWriters.WriterChoice): (line: string)
      reads this
      ensures line == ResultWriters.ResultLine(choice, currentLevel, elapsedSeconds)
      ensures choice.PlainResult? ==> ResultWriters.ParseResult(line[..|line| - 1]) == Some((currentLevel, elapsedSeconds))
    {
      ResultWriters.ResultLine(choice, currentLevel, elapsedSeconds)
    }
  }
}
