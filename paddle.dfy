/** A paddle (models/PaddleModel.java): a rectangle that moves vertically between roof and floor. */
module Paddles {
  import opened Constants

  /**
   * Where a paddle with the given `y`, velocity and height ends up after one move: a still
   * paddle stays where it is (even outside the field); a moving one is clamped to the roof (0)
   * or to the floor (floor - height).
   */
  function NextPaddleY(y: int, yVelocity: int, floor: int, height: int): (r: int)
    ensures yVelocity == 0 ==> r == y
    ensures yVelocity != 0 && y + yVelocity < 0 ==> r == 0
    ensures yVelocity != 0 && 0 <= y + yVelocity && y + yVelocity > floor - height ==> r == floor - height
    ensures yVelocity != 0 && 0 <= y + yVelocity <= floor - height ==> r == y + yVelocity
    ensures yVelocity != 0 && floor >= height ==> 0 <= r <= floor - height
  {
    var nextY := y + yVelocity;
    var roof := 0;
    if nextY != y then
      if nextY < roof then roof
      else if nextY > floor - height then floor - height
      else y + yVelocity
    else y
  }

  class Paddle {
    var x: int
    var y: int
    var width: int
    var height: int
    var yVelocity: int
    const paddleSpeed: int
    /** The field's height, which the source reads from the game model's bounds on every move. */
    const floor: int

    constructor (floor: int)
      ensures this.floor == floor && paddleSpeed == PaddleSpeed
      ensures x == 0 && y == 0 && width == 0 && height == 0 && yVelocity == 0
    {
      this.floor := floor;
      paddleSpeed := PaddleSpeed;
      x, y, width, height, yVelocity := 0, 0, 0, 0, 0;
    }

    /** The list [x, y, width, height] handed to the view. */
    function DimensionsAndPosition(): (r: seq<int>)
      reads this
      ensures |r| == 4
      ensures r[0] == x && r[1] == y && r[2] == width && r[3] == height
    {
      [x, y, width, height]
    }

    method SetX(x: int)
      modifies this`x
      ensures this.x == x
    {
      this.x := x;
    }

    method SetY(y: int)
      modifies this`y
      ensures this.y == y
    {
      this.y := y;
    }

    method SetHeight(height: int)
      modifies this`height
      ensures this.height == height
    {
      this.height := height;
    }

    method SetWidth(width: int)
      modifies this`width
      ensures this.width == width
    {
      this.width := width;
    }

    method SetYVelocity(yVelocity: int)
      modifies this`yVelocity
      ensures this.yVelocity == yVelocity
    {
      this.yVelocity := yVelocity;
    }

    /** One movement step; only `y` changes. */
    method MovePaddle()
      modifies this`y
      ensures y == NextPaddleY(old(y), yVelocity, floor, height)
      ensures yVelocity != 0 && floor >= height ==> 0 <= y <= floor - height
    {
      var nextY := y + yVelocity;
      var roof := 0;

      var paddleIsMoving := nextY != y;
      var paddleHitsRoof := nextY < roof;
      var paddleHitsFloor := nextY > floor - height;

      if paddleIsMoving {
        if paddleHitsRoof {
          y := roof;
        } else if paddleHitsFloor {
          y := floor - height;
        } else {
          y := y + yVelocity;
        }
      }
    }
  }
}
