/**
 * A ball (models/balls/AbstractBallModel.java and its six variant subclasses). One movement
 * step runs three phases in order: miss detection on X, bounce on the roof or floor, and
 * reflection off a paddle. The random nudges of the source are passed in as draws.
 */
module Balls {
  import opened Constants
  import opened Variants
  import Paddles

  /** The part of a ball that a movement step reads and writes. */
  datatype Motion = Motion(x: int, y: int, xVelocity: int, yVelocity: int, wasMissed: bool)

  /** A paddle's rectangle as the hit test reads it. */
  datatype PaddleBox = PaddleBox(x: int, y: int, width: int, height: int)

  function BoxOf(p: Paddles.Paddle): (b: PaddleBox)
    reads p
    ensures b.x == p.x && b.y == p.y && b.width == p.width && b.height == p.height
  {
    PaddleBox(p.x, p.y, p.width, p.height)
  }

  /**
   * The nudge `(nextInt(2) - 1) * factor` for a draw of `nextInt(2)`. It is one-sided:
   * never positive for a positive factor.
   */
  function Nudge(draw: int, factor: int): (n: int)
    requires 0 <= draw < 2
    ensures n == -factor || n == 0
    ensures factor >= 0 ==> n <= 0
  {
    (draw - 1) * factor
  }

  /**
   * Miss detection. A ball that does not move on X keeps its position and its flag; a moving
   * one is flagged missed exactly when its next X lies left of -side or right of the right
   * wall, and it advances on X only when it is not missed.
   */
  function MissPhase(m: Motion, side: int, rightWall: int): (r: Motion)
    ensures r.y == m.y && r.xVelocity == m.xVelocity && r.yVelocity == m.yVelocity
    ensures m.xVelocity == 0 ==> r == m
    ensures m.xVelocity != 0 ==>
              (r.wasMissed <==> m.x + m.xVelocity < -side || m.x + m.xVelocity > rightWall)
    ensures r.x == (if m.xVelocity != 0 && !r.wasMissed then m.x + m.xVelocity else m.x)
  {
    var nextX := m.x + m.xVelocity;
    if m.x == nextX then m
    else if nextX < -side then m.(wasMissed := true)
    else if nextX > rightWall then m.(wasMissed := true)
    else m.(x := m.x + m.xVelocity, wasMissed := false)
  }

  /** The next Y leaves the field through the roof or the floor. */
  predicate HitsRoofOrFloor(m: Motion, side: int, floor: int) {
    m.y + m.yVelocity < 0 || m.y + m.yVelocity + side > floor
  }

  /**
   * Bounce on the roof or floor. A ball that does not move on Y is left alone. A moving one
   * that would leave the field is put against the roof (0) or the floor (floor - side), its
   * Y velocity is negated and its X velocity is nudged; otherwise it advances on Y.
   */
  function BouncePhase(m: Motion, side: int, floor: int, factor: int, xDraw: int): (r: Motion)
    requires 0 <= xDraw < 2
    ensures r.x == m.x && r.wasMissed == m.wasMissed
    ensures m.yVelocity == 0 ==> r == m
    ensures m.yVelocity != 0 && m.y + m.yVelocity < 0 ==> r.y == 0
    ensures m.yVelocity != 0 && 0 <= m.y + m.yVelocity && m.y + m.yVelocity + side > floor ==>
              r.y == floor - side
    ensures m.yVelocity != 0 && HitsRoofOrFloor(m, side, floor) ==>
              r.yVelocity == -m.yVelocity &&
              (r.xVelocity == m.xVelocity || r.xVelocity == m.xVelocity - factor)
    ensures m.yVelocity != 0 && !HitsRoofOrFloor(m, side, floor) ==>
              r.y == m.y + m.yVelocity && r.xVelocity == m.xVelocity && r.yVelocity == m.yVelocity
    ensures m.yVelocity != 0 && floor >= side ==> 0 <= r.y <= floor - side
  {
    var nextY := m.y + m.yVelocity;
    if m.y == nextY then m
    else if nextY < 0 then
      m.(y := 0, yVelocity := -m.yVelocity, xVelocity := m.xVelocity + Nudge(xDraw, factor))
    else if nextY + side > floor then
      m.(y := floor - side, yVelocity := -m.yVelocity, xVelocity := m.xVelocity + Nudge(xDraw, factor))
    else
      m.(y := m.y + m.yVelocity)
  }

  /** The ball's next Y overlaps the paddle's vertical extent, widened by half the side. */
  predicate WithinPaddleY(nextY: int, side: int, p: PaddleBox) {
    p.y - JavaDiv(side, 2) <= nextY && nextY - JavaDiv(side, 2) < p.y + p.height
  }

  /** The ball reaches the front (right edge) of the left paddle. */
  predicate HitsPaddle1(nextX: int, nextY: int, side: int, p1: PaddleBox) {
    nextX <= p1.x + p1.width && WithinPaddleY(nextY, side, p1)
  }

  /** The ball's right edge passes the front (left edge) of the right paddle. */
  predicate HitsPaddle2(nextX: int, nextY: int, side: int, p2: PaddleBox) {
    nextX + side > p2.x && WithinPaddleY(nextY, side, p2)
  }

  /**
   * Reflection off a paddle, tested on the next position computed before the step. A hit puts
   * the ball against the paddle's front, negates its X velocity and nudges its Y velocity; the
   * right paddle is tested only when the left one is not hit.
   */
  function PaddlePhase(m: Motion, nextX: int, nextY: int, side: int, factor: int,
                       p1: PaddleBox, p2: PaddleBox, yDraw: int): (r: Motion)
    requires 0 <= yDraw < 2
    ensures r.y == m.y && r.wasMissed == m.wasMissed
    ensures HitsPaddle1(nextX, nextY, side, p1) ==>
              r.x == p1.x + p1.width && r.xVelocity == -m.xVelocity &&
              (r.yVelocity == m.yVelocity || r.yVelocity == m.yVelocity - factor)
    ensures !HitsPaddle1(nextX, nextY, side, p1) && HitsPaddle2(nextX, nextY, side, p2) ==>
              r.x == p2.x - side && r.xVelocity == -m.xVelocity &&
              (r.yVelocity == m.yVelocity || r.yVelocity == m.yVelocity - factor)
    ensures !HitsPaddle1(nextX, nextY, side, p1) && !HitsPaddle2(nextX, nextY, side, p2) ==> r == m
  {
    if HitsPaddle1(nextX, nextY, side, p1) then
      m.(x := p1.x + p1.width, xVelocity := -m.xVelocity, yVelocity := m.yVelocity + Nudge(yDraw, factor))
    else if HitsPaddle2(nextX, nextY, side, p2) then
      m.(x := p2.x - side, xVelocity := -m.xVelocity, yVelocity := m.yVelocity + Nudge(yDraw, factor))
    else
      m
  }

  /** One whole movement step of a ball of variant `v` in a field of the given bounds. */
  function Step(m: Motion, v: Variant, boundsX: int, boundsY: int,
                p1: PaddleBox, p2: PaddleBox, xDraw: int, yDraw: int): Motion
    requires 0 <= xDraw < 2 && 0 <= yDraw < 2
  {
    var nextX := m.x + m.xVelocity;
    var nextY := m.y + m.yVelocity;
    var missed := MissPhase(m, v.SideLength(), boundsX);
    var bounced := BouncePhase(missed, v.SideLength(), boundsY, v.RandomnessFactor(), xDraw);
    PaddlePhase(bounced, nextX, nextY, v.SideLength(), v.RandomnessFactor(), p1, p2, yDraw)
  }

  /**
   * The phases compose in the order miss, bounce, paddle hit: a ball that bounces off the roof
   * and hits the left paddle in the same step ends against the paddle at Y 0, with the X
   * velocity negated after its nudge and the Y velocity nudged after its negation.
   */
  lemma RoofBounceThenPaddle1(m: Motion, v: Variant, boundsX: int, boundsY: int,
                              p1: PaddleBox, p2: PaddleBox, xDraw: int, yDraw: int)
    requires 0 <= xDraw < 2 && 0 <= yDraw < 2
    requires m.yVelocity != 0 && m.y + m.yVelocity < 0
    requires HitsPaddle1(m.x + m.xVelocity, m.y + m.yVelocity, v.SideLength(), p1)
    ensures var r := Step(m, v, boundsX, boundsY, p1, p2, xDraw, yDraw);
            && r.x == p1.x + p1.width && r.y == 0
            && (r.xVelocity == -m.xVelocity || r.xVelocity == v.RandomnessFactor() - m.xVelocity)
            && (r.yVelocity == -m.yVelocity || r.yVelocity == -m.yVelocity - v.RandomnessFactor())
  {
  }

  /** Only miss detection sets the flag: a step's flag is that of its miss phase. */
  lemma StepMissFlag(m: Motion, v: Variant, boundsX: int, boundsY: int,
                     p1: PaddleBox, p2: PaddleBox, xDraw: int, yDraw: int)
    requires 0 <= xDraw < 2 && 0 <= yDraw < 2
    ensures var r := Step(m, v, boundsX, boundsY, p1, p2, xDraw, yDraw);
            && (m.xVelocity == 0 ==> r.wasMissed == m.wasMissed)
            && (m.xVelocity != 0 ==>
                  (r.wasMissed <==> m.x + m.xVelocity < -v.SideLength() || m.x + m.xVelocity > boundsX))
  {
  }

  class Ball {
    const variant: Variant
    /** The field's width and height, which the source reads from the game model. */
    const boundsX: int
    const boundsY: int
    var x: int
    var y: int
    var xVelocity: int
    var yVelocity: int
    var wasMissed: bool

    constructor (variant: Variant, boundsX: int, boundsY: int)
      ensures this.variant == variant && this.boundsX == boundsX && this.boundsY == boundsY
      ensures State() == Motion(0, 0, 0, 0, false)
    {
      this.variant := variant;
      this.boundsX := boundsX;
      this.boundsY := boundsY;
      x, y, xVelocity, yVelocity, wasMissed := 0, 0, 0, 0, false;
    }

    function State(): Motion
      reads this
    {
      Motion(x, y, xVelocity, yVelocity, wasMissed)
    }

    /** One movement step against the two paddles; the draws feed the two possible nudges. */
    method MoveBall(paddle1: Paddles.Paddle, paddle2: Paddles.Paddle, xDraw: int, yDraw: int)
      requires 0 <= xDraw < 2 && 0 <= yDraw < 2
      modifies this
      ensures State() == Step(old(State()), variant, boundsX, boundsY,
                              BoxOf(paddle1), BoxOf(paddle2), xDraw, yDraw)
    {
      var nextX := x + xVelocity;
      var nextY := y + yVelocity;
      ghost var s0 := State();

      if x != nextX {
        wasMissed := DetectMiss(nextX);
      }
      assert State() == MissPhase(s0, variant.SideLength(), boundsX);
      ghost var s1 := State();

      if y != nextY {
        DetectBounce(nextY, xDraw);
      }
      assert State() == BouncePhase(s1, variant.SideLength(), boundsY, variant.RandomnessFactor(), xDraw);

      DetectPaddleHit(nextX, nextY, paddle1, paddle2, yDraw);
    }

    /** Whether the ball misses at `nextX`; advances X only when it does not. */
    method DetectMiss(nextX: int) returns (miss: bool)
      requires nextX == x + xVelocity
      modifies this`x
      ensures miss <==> nextX < -variant.SideLength() || nextX > boundsX
      ensures x == if miss then old(x) else old(x) + xVelocity
    {
      var rightWall := boundsX;

      if nextX < -variant.SideLength() {
        miss := true;
      } else if nextX > rightWall {
        miss := true;
      } else {
        x := x + xVelocity;
        miss := false;
      }
    }

    method DetectBounce(nextY: int, xDraw: int)
      requires nextY == y + yVelocity && nextY != y
      requires 0 <= xDraw < 2
      modifies this`y, this`yVelocity, this`xVelocity
      ensures State() == BouncePhase(old(State()), variant.SideLength(), boundsY,
                                     variant.RandomnessFactor(), xDraw)
    {
      var floor := boundsY;

      if nextY < 0 {
        y := 0;
        yVelocity := -yVelocity;
        RandomiseXVelocity(xDraw);
      } else if nextY + variant.SideLength() > floor {
        y := floor - variant.SideLength();
        yVelocity := -yVelocity;
        RandomiseXVelocity(xDraw);
      } else {
        y := y + yVelocity;
      }
    }

    method RandomiseXVelocity(draw: int)
      requires 0 <= draw < 2
      modifies this`xVelocity
      ensures xVelocity == old(xVelocity) + Nudge(draw, variant.RandomnessFactor())
    {
      var randomness := (draw - 1) * variant.RandomnessFactor();
      xVelocity := xVelocity + randomness;
    }

    method DetectPaddleHit(nextX: int, nextY: int, paddle1: Paddles.Paddle, paddle2: Paddles.Paddle,
                           yDraw: int)
      requires 0 <= yDraw < 2
      modifies this`x, this`xVelocity, this`yVelocity
      ensures State() == PaddlePhase(old(State()), nextX, nextY, variant.SideLength(),
                                     variant.RandomnessFactor(), BoxOf(paddle1), BoxOf(paddle2), yDraw)
    {
      var frontOfPaddle1 := paddle1.x + paddle1.width;
      var frontOfPaddle2 := paddle2.x;
      var halfSide := JavaDiv(variant.SideLength(), 2);

      var ballIsWithinPaddle1Y := paddle1.y - halfSide <= nextY
                                  && nextY - halfSide < paddle1.y + paddle1.height;
      var ballIsWithinPaddle2Y := paddle2.y - halfSide <= nextY
                                  && nextY - halfSide < paddle2.y + paddle2.height;
      var ballHitsPaddle1 := nextX <= frontOfPaddle1 && ballIsWithinPaddle1Y;
      var ballHitsPaddle2 := nextX + variant.SideLength() > frontOfPaddle2 && ballIsWithinPaddle2Y;

      if ballHitsPaddle1 {
        x := paddle1.x + paddle1.width;
        xVelocity := -xVelocity;
        RandomiseYVelocity(yDraw);
      } else if ballHitsPaddle2 {
        x := paddle2.x - variant.SideLength();
        xVelocity := -xVelocity;
        RandomiseYVelocity(yDraw);
      }
    }

    method RandomiseYVelocity(draw: int)
      requires 0 <= draw < 2
      modifies this`yVelocity
      ensures yVelocity == old(yVelocity) + Nudge(draw, variant.RandomnessFactor())
    {
      var randomness := (draw - 1) * variant.RandomnessFactor();
      yVelocity := yVelocity + randomness;
    }
  }
}
