/**
 * The keyboard handling of the controller (controllers/PongController.java). W and S steer the
 * left paddle (paddle1), Up and Down the right one (paddle2); the controller remembers which of
 * the four keys are held and sets the paddles' vertical velocities on each press and release.
 * The timer-driven game loop, the dialogs and the view are not part of this model.
 */
module Controller {
  import opened Paddles
  import opened Pong

  /** The four key flags and the two paddle velocities they drive. */
  datatype Controls = Controls(
    wHeld: bool, sHeld: bool, upHeld: bool, downHeld: bool,
    leftVelocity: int, rightVelocity: int)

  /** The four keys the game reacts to, as named by the key-text lookup. */
  predicate IsGameKey(key: string) {
    key == "Up" || key == "Down" || key == "W" || key == "S"
  }

  /**
   * The effect of pressing `key`: the key is marked held and its paddle moves at full speed in
   * the key's direction (up is negative). A key of one paddle leaves the other alone, and any
   * other key changes nothing.
   */
  function Press(c: Controls, key: string, leftSpeed: int, rightSpeed: int): (r: Controls)
    ensures !IsGameKey(key) ==> r == c
    ensures key == "W" || key == "S" ==> r.upHeld == c.upHeld && r.downHeld == c.downHeld && r.rightVelocity == c.rightVelocity
    ensures key == "Up" || key == "Down" ==> r.wHeld == c.wHeld && r.sHeld == c.sHeld && r.leftVelocity == c.leftVelocity
    ensures key == "W" ==> r.wHeld && r.sHeld == c.sHeld && r.leftVelocity == -leftSpeed
    ensures key == "S" ==> r.sHeld && r.wHeld == c.wHeld && r.leftVelocity == leftSpeed
    ensures key == "Up" ==> r.upHeld && r.downHeld == c.downHeld && r.rightVelocity == -rightSpeed
    ensures key == "Down" ==> r.downHeld && r.upHeld == c.upHeld && r.rightVelocity == rightSpeed
  {
    if key == "Up" then c.(upHeld := true, rightVelocity := -rightSpeed)
    else if key == "Down" then c.(downHeld := true, rightVelocity := rightSpeed)
    else if key == "W" then c.(wHeld := true, leftVelocity := -leftSpeed)
    else if key == "S" then c.(sHeld := true, leftVelocity := leftSpeed)
    else c
  }

  /**
   * The effect of releasing `key`: the key is marked released, and its paddle stops only when
   * the opposite key of that paddle is not held; otherwise its velocity is left as it was.
   */
  function Release(c: Controls, key: string): (r: Controls)
    ensures !IsGameKey(key) ==> r == c
    ensures key == "W" || key == "S" ==> r.upHeld == c.upHeld && r.downHeld == c.downHeld && r.rightVelocity == c.rightVelocity
    ensures key == "Up" || key == "Down" ==> r.wHeld == c.wHeld && r.sHeld == c.sHeld && r.leftVelocity == c.leftVelocity
    ensures key == "W" || key == "S" ==> (r.leftVelocity == 0 <==> !r.wHeld && !r.sHeld) || r.leftVelocity == c.leftVelocity
    ensures key == "Up" || key == "Down" ==> (r.rightVelocity == 0 <==> !r.upHeld && !r.downHeld) || r.rightVelocity == c.rightVelocity
    ensures key == "W" ==> !r.wHeld && r.sHeld == c.sHeld && (r.leftVelocity == if c.sHeld then c.leftVelocity else 0)
    ensures key == "S" ==> !r.sHeld && r.wHeld == c.wHeld && (r.leftVelocity == if c.wHeld then c.leftVelocity else 0)
    ensures key == "Up" ==> !r.upHeld && r.downHeld == c.downHeld && (r.rightVelocity == if c.downHeld then c.rightVelocity else 0)
    ensures key == "Down" ==> !r.downHeld && r.upHeld == c.upHeld && (r.rightVelocity == if c.upHeld then c.rightVelocity else 0)
  {
    if key == "Up" then c.(upHeld := false, rightVelocity := if c.downHeld then c.rightVelocity else 0)
    else if key == "Down" then c.(downHeld := false, rightVelocity := if c.upHeld then c.rightVelocity else 0)
    else if key == "W" then c.(wHeld := false, leftVelocity := if c.sHeld then c.leftVelocity else 0)
    else if key == "S" then c.(sHeld := false, leftVelocity := if c.wHeld then c.leftVelocity else 0)
    else c
  }

  /** A paddle's velocity is one of standing still or full speed up or down. */
  predicate IsPaddleVelocity(v: int, speed: int) {
    v == -speed || v == 0 || v == speed
  }

  /**
   * The controls are consistent when each paddle moves exactly while one of its keys is held,
   * and only at full speed.
   */
  predicate Consistent(c: Controls, leftSpeed: int, rightSpeed: int) {
    && IsPaddleVelocity(c.leftVelocity, leftSpeed)
    && IsPaddleVelocity(c.rightVelocity, rightSpeed)
    && (c.leftVelocity == 0 <==> !c.wHeld && !c.sHeld)
    && (c.rightVelocity == 0 <==> !c.upHeld && !c.downHeld)
  }

  /** No key held and both paddles still: the controls of a new controller. */
  const Idle := Controls(false, false, false, false, 0, 0)

  lemma IdleConsistent(leftSpeed: int, rightSpeed: int)
    ensures Consistent(Idle, leftSpeed, rightSpeed)
  {
  }

  /** Pressing any key keeps the controls consistent. */
  lemma PressKeepsConsistent(c: Controls, key: string, leftSpeed: int, rightSpeed: int)
    requires leftSpeed > 0 && rightSpeed > 0
    requires Consistent(c, leftSpeed, rightSpeed)
    ensures Consistent(Press(c, key, leftSpeed, rightSpeed), leftSpeed, rightSpeed)
  {
  }

  /** Releasing any key keeps the controls consistent. */
  lemma ReleaseKeepsConsistent(c: Controls, key: string, leftSpeed: int, rightSpeed: int)
    requires Consistent(c, leftSpeed, rightSpeed)
    ensures Consistent(Release(c, key), leftSpeed, rightSpeed)
  {
  }

  /** Whether one of the keys of the paddle that `key` steers is held. */
  predicate PaddleKeyHeld(c: Controls, key: string) {
    if key == "W" || key == "S" then c.wHeld || c.sHeld
    else if key == "Up" || key == "Down" then c.upHeld || c.downHeld
    else false
  }

  /**
   * Releasing a key undoes pressing it: from consistent controls in which neither key of
   * that paddle is held, a press followed by a release of the same key restores the controls.
   */
  lemma ReleaseUndoesPress(c: Controls, key: string, leftSpeed: int, rightSpeed: int)
    requires Consistent(c, leftSpeed, rightSpeed)
    requires !PaddleKeyHeld(c, key)
    ensures Release(Press(c, key, leftSpeed, rightSpeed), key) == c
  {
  }

  /**
   * Releasing a key while the paddle's opposite key is held leaves the velocity as it was, so
   * pressing Up, then Down, then releasing Down leaves the right paddle moving down although
   * only Up is held.
   */
  lemma ReleaseKeepsLastDirection(c: Controls, leftSpeed: int, rightSpeed: int)
    ensures var r := Release(Press(Press(c, "Up", leftSpeed, rightSpeed), "Down", leftSpeed, rightSpeed), "Down");
            r.upHeld && !r.downHeld && r.rightVelocity == rightSpeed
  {
  }

  class PongController {
    const model: PongModel
    var wIsPressed: bool
    var sIsPressed: bool
    var upIsPressed: bool
    var downIsPressed: bool

    /** The key flags together with the paddles' current velocities. */
    function Current(): (c: Controls)
      reads this, model.paddle1, model.paddle2
      ensures c.leftVelocity == model.paddle1.yVelocity && c.rightVelocity == model.paddle2.yVelocity
      ensures c.wHeld == wIsPressed && c.sHeld == sIsPressed
      ensures c.upHeld == upIsPressed && c.downHeld == downIsPressed
    {
      Controls(wIsPressed, sIsPressed, upIsPressed, downIsPressed, model.paddle1.yVelocity, model.paddle2.yVelocity)
    }

    ghost predicate Valid()
      reads this, model.paddle1, model.paddle2
    {
      && model.paddle1 != model.paddle2
      && model.paddle1.paddleSpeed > 0 && model.paddle2.paddleSpeed > 0
      && Consistent(Current(), model.paddle1.paddleSpeed, model.paddle2.paddleSpeed)
    }

    /** A controller for a game whose paddles are standing still; no key is held yet. */
    constructor (model: PongModel)
      requires model.paddle1 != model.paddle2
      requires model.paddle1.paddleSpeed > 0 && model.paddle2.paddleSpeed > 0
      requires model.paddle1.yVelocity == 0 && model.paddle2.yVelocity == 0
      ensures this.model == model
      ensures Valid() && Current() == Idle
    {
      this.model := model;
      wIsPressed, sIsPressed, upIsPressed, downIsPressed := false, false, false, false;
    }

    /** Handles a key press, named by its key text. */
    method KeyPressed(keyText: string)
      requires Valid()
      modifies this`wIsPressed, this`sIsPressed, this`upIsPressed, this`downIsPressed
      modifies model.paddle1`yVelocity, model.paddle2`yVelocity
      ensures Valid()
      ensures Current() == Press(old(Current()), keyText, model.paddle1.paddleSpeed, model.paddle2.paddleSpeed)
    {
      PressKeepsConsistent(Current(), keyText, model.paddle1.paddleSpeed, model.paddle2.paddleSpeed);
      var paddle1 := model.paddle1;
      var paddle2 := model.paddle2;
      if keyText == "Up" {
        upIsPressed := true;
        paddle2.SetYVelocity(-paddle2.paddleSpeed);
      } else if keyText == "Down" {
        downIsPressed := true;
        paddle2.SetYVelocity(paddle2.paddleSpeed);
      } else if keyText == "W" {
        wIsPressed := true;
        paddle1.SetYVelocity(-paddle1.paddleSpeed);
      } else if keyText == "S" {
        sIsPressed := true;
        paddle1.SetYVelocity(paddle1.paddleSpeed);
      }
    }

    /** Handles a key release, named by its key text. */
    method KeyReleased(keyText: string)
      requires Valid()
      modifies this`wIsPressed, this`sIsPressed, this`upIsPressed, this`downIsPressed
      modifies model.paddle1`yVelocity, model.paddle2`yVelocity
      ensures Valid()
      ensures Current() == Release(old(Current()), keyText)
    {
      ReleaseKeepsConsistent(Current(), keyText, model.paddle1.paddleSpeed, model.paddle2.paddleSpeed);
      var paddle1 := model.paddle1;
      var paddle2 := model.paddle2;
      if keyText == "Up" {
        upIsPressed := false;
        if !downIsPressed {
          paddle2.SetYVelocity(0);
        }
      } else if keyText == "Down" {
        downIsPressed := false;
        if !upIsPressed {
          paddle2.SetYVelocity(0);
        }
      } else if keyText == "W" {
        wIsPressed := false;
        if !sIsPressed {
          paddle1.SetYVelocity(0);
        }
      } else if keyText == "S" {
        sIsPressed := false;
        if !wIsPressed {
          paddle1.SetYVelocity(0);
        }
      }
    }
  }
}
