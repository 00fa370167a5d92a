/**
 * The ball factories (models/balls/AbstractBallFactory.java, EasyBallFactory.java and
 * HardBallFactory.java). The two concrete factories differ only in the difficulty of the
 * variants they take from the registry, so one class with a `difficulty` constant stands
 * for both. A factory takes a ready ball from the registry and launches it from the centre
 * of the field at the current level's speed.
 */
module BallFactories {
  import opened Options
  import opened Constants
  import opened Variants
  import opened Balls
  import opened BallPools

  /**
   * The size picked by a draw of `nextInt(3)`: 0 big, 1 medium, 2 small. Any other value is
   * the source's IllegalStateException branch, which such a draw never reaches.
   */
  function SizeForDraw(draw: int): (size: Option<SizeClass>)
    ensures size.Some? <==> 0 <= draw < 3
    ensures draw == 0 ==> size == Some(Big)
    ensures draw == 1 ==> size == Some(Medium)
    ensures draw == 2 ==> size == Some(Small)
  {
    match draw
    case 0 => Some(Big)
    case 1 => Some(Medium)
    case 2 => Some(Small)
    case _ => None
  }

  /** Every size is picked by exactly one of the three draws. */
  lemma SizeForDrawBijective(size: SizeClass)
    ensures exists draw :: 0 <= draw < 3 && SizeForDraw(draw) == Some(size)
    ensures forall d1, d2 :: 0 <= d1 < 3 && 0 <= d2 < 3 && SizeForDraw(d1) == SizeForDraw(d2) ==> d1 == d2
  {
    var draw := match size case Big => 0 case Medium => 1 case Small => 2;
    assert SizeForDraw(draw) == Some(size);
  }

  /** The random choices of one spawn: the size draw and the signs of the two velocities. */
  datatype SpawnDraw = SpawnDraw(size: int, xPositive: bool, yPositive: bool)

  /** A launch velocity component `level * (nextBoolean() ? 1 : -1)`: plus or minus the level. */
  function SpawnVelocity(level: int, positive: bool): (v: int)
    ensures v == level || v == -level
    ensures positive ==> v == level
    ensures !positive ==> v == -level
  {
    level * (if positive then 1 else -1)
  }

  class BallFactory {
    const difficulty: Difficulty
    const ballPool: BallPoolService
    /** The spawn point: the centre of the field, fixed for the factory's lifetime. */
    const middleX: int
    const middleY: int
    var level: int
    var waitInterval: int

    constructor (difficulty: Difficulty, ballPool: BallPoolService, boundsX: int, boundsY: int)
      ensures this.difficulty == difficulty && this.ballPool == ballPool
      ensures level == 1 && waitInterval == FactoryWaitInterval
      ensures middleX == JavaDiv(boundsX, 2) && middleY == JavaDiv(boundsY, 2)
    {
      this.difficulty := difficulty;
      this.ballPool := ballPool;
      level := 1;
      waitInterval := FactoryWaitInterval;
      middleX := JavaDiv(boundsX, 2);
      middleY := JavaDiv(boundsY, 2);
    }

    method SetLevel(level: int)
      modifies this`level
      ensures this.level == level
    {
      this.level := level;
    }

    /**
     * Takes the next ball of this factory's difficulty and the given size from the registry,
     * puts it at the centre and gives it velocity (+-level, +-level).
     *
     * The source sleeps while that pool is empty, waiting for a producer thread; with no
     * other thread, the wait ends only if the pool is already non-empty, which the
     * precondition states. The poll's possible null is the None result.
     */
    method CreateBall(size: SizeClass, xPositive: bool, yPositive: bool) returns (ball: Option<Ball>)
      requires ballPool.Valid()
      requires !ballPool.IsBallPoolEmpty(Variant(difficulty, size))
      modifies ballPool
      modifies Head(ballPool.pools, Variant(difficulty, size))`x,
               Head(ballPool.pools, Variant(difficulty, size))`y,
               Head(ballPool.pools, Variant(difficulty, size))`xVelocity,
               Head(ballPool.pools, Variant(difficulty, size))`yVelocity
      ensures ballPool.Valid()
      ensures (ball, ballPool.pools) == old(Poll(ballPool.pools, Variant(difficulty, size)))
      ensures ball.Some? && ball.value.variant == Variant(difficulty, size)
      ensures ball.value.x == middleX && ball.value.y == middleY
      ensures ball.value.xVelocity == SpawnVelocity(level, xPositive)
      ensures ball.value.yVelocity == SpawnVelocity(level, yPositive)
      ensures ball.value.wasMissed == old(ball.value.wasMissed)
    {
      var v := Variant(difficulty, size);
      var xVelocity := level * (if xPositive then 1 else -1);
      var yVelocity := level * (if yPositive then 1 else -1);

      var poolIsEmpty := ballPool.IsBallPoolEmpty(v);
      assert !poolIsEmpty;

      ball := ballPool.ConsumeBall(v);
      if ball.Some? {
        var b := ball.value;
        b.x := middleX;
        b.y := middleY;
        b.xVelocity := xVelocity;
        b.yVelocity := yVelocity;
      }
    }

    /** Picks the size from a draw of `nextInt(3)` and makes exactly one CreateBall call. */
    method CreateBallOfRandomSize(draw: SpawnDraw) returns (ball: Option<Ball>)
      requires 0 <= draw.size < 3
      requires ballPool.Valid()
      requires !ballPool.IsBallPoolEmpty(Variant(difficulty, SizeForDraw(draw.size).value))
      modifies ballPool
      modifies Head(ballPool.pools, Variant(difficulty, SizeForDraw(draw.size).value))`x,
               Head(ballPool.pools, Variant(difficulty, SizeForDraw(draw.size).value))`y,
               Head(ballPool.pools, Variant(difficulty, SizeForDraw(draw.size).value))`xVelocity,
               Head(ballPool.pools, Variant(difficulty, SizeForDraw(draw.size).value))`yVelocity
      ensures ballPool.Valid()
      ensures (ball, ballPool.pools)
              == old(Poll(ballPool.pools, Variant(difficulty, SizeForDraw(draw.size).value)))
      ensures ball.Some? && ball.value.variant == Variant(difficulty, SizeForDraw(draw.size).value)
      ensures ball.value.x == middleX && ball.value.y == middleY
      ensures ball.value.xVelocity == SpawnVelocity(level, draw.xPositive)
      ensures ball.value.yVelocity == SpawnVelocity(level, draw.yPositive)
      ensures ball.value.wasMissed == old(ball.value.wasMissed)
    {
      var size := SizeForDraw(draw.size).value;
      ball := CreateBall(size, draw.xPositive, draw.yPositive);
    }
  }
}
