/**
 * The game's numeric constants (constants/Constants.java) and Java's integer division,
 * which truncates toward zero where Dafny's `/` is Euclidean.
 */
module Constants {

  const BigBallSideLength := 60
  const MediumBallSideLength := 40
  const SmallBallSideLength := 20

  const EasyBallRandomnessFactor := 1
  const HardBallRandomnessFactor := 2

  const PaddleSpeed := 8
  const PaddleWidthFraction := 50
  const PaddleHeightFraction := 4

  const BallPoolMinimumBalls := 10
  const BallPoolNewBallsBatchAmount := 5

  const TimeBetweenLevels := 15
  const AmountOfEasyLevels := 5

  /** The interval, in milliseconds, a factory sleeps between two looks at an empty pool. */
  const FactoryWaitInterval := 1000

  /** Java's `a / b` for a positive divisor: the quotient rounded toward zero. */
  function JavaDiv(a: int, b: int): (q: int)
    requires b > 0
    ensures a >= 0 ==> 0 <= q * b <= a < q * b + b
    ensures a < 0 ==> q * b - b < a <= q * b <= 0
  {
    var n := if a >= 0 then a else -a;
    DivisionBounds(n, b);
    if a >= 0 then n / b else -(n / b)
  }

  /** Euclidean division of a natural number brackets it between two consecutive multiples. */
  lemma DivisionBounds(n: int, b: int)
    requires n >= 0 && b > 0
    ensures 0 <= (n / b) * b <= n < (n / b) * b + b
  {
    var q, r := n / b, n % b;
    assert n == q * b + r && 0 <= r < b;
    assert q >= 0;
  }
}
