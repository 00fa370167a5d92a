# Ultimate Survival Pong: a Dafny model of the game core

Ultimate Survival Pong is a two-player Pong variant. Balls keep coming, and the game is over when
every ball has been missed. Each ball is one of six variants: easy or hard, and small, medium or big.
New balls come from a ball registry that keeps one FIFO pool of ready balls per variant. Producer
tasks keep the pools topped up. Every 15 seconds a new level starts: the pools get a supply pass and
new balls come into play from the centre of the field. That is one easy ball per level up to
level 5 and two hard balls per level after it.

This project models that core in Dafny:

- `constants.dfy` (`Constants`): the game's numeric constants. It also holds `JavaDiv`, Java's
  truncating division, because the source divides values that can be negative.
- `variants.dfy` (`Options`, `Variants`): the six ball variants, with side length and randomness
  factor as functions of the variant.
- `paddle.dfy` (`Paddles`): the paddle class and its clamped movement step.
- `ball.dfy` (`Balls`): the ball class. One movement step has three phases, each stated as a pure
  function on the ball's motion, and the class methods are proved against those functions.
- `ball_pool.dfy` (`BallPools`): the registry, with its operations (offer, poll, offer all)
  specified as pure functions on a map of queues. The class `BallPoolService` updates that map in
  place.
- `ball_factory.dfy` (`BallFactories`): the easy and hard ball factories, as one class
  parameterised by difficulty.
- `pong_model.dfy` (`Pong`): the game model, covering supply passes, spawning, levels, ball and
  paddle moves, returning missed balls, and the clock. Two ghost predicates are kept invariant.
  `Valid` covers the object structure, the rule "hard mode exactly when the level is past 5", and
  the field: both paddles' floor and every ball's bounds are the model's own.
  `Exclusive` says every ball sits in exactly one place: one pool slot or one place in play.
- `pong_controller.dfy` (`Controller`): the keyboard state machine. Four key flags drive the two
  paddle velocities.
- `result_writers.dfy` (`ResultWriters`): the two result texts, the decimal rendering of `int`,
  and parsers that read level and time back.

Randomness, the clock and today's date are parameters:

- a nudge draw is `nextInt(2)`;
- a size draw is `nextInt(3)`;
- the two signs of a launch velocity are booleans;
- `now` is in milliseconds;
- the date is a string.

Producer tasks run to completion when they are submitted. The iteration order of the registry's
count map is the parameter `order`.

## Model

| member | source | states |
|---|---|---|
| Constants.JavaDiv | src/main/java/models/PongModel.java:61-65 | Java's division by a positive divisor rounds toward zero: the quotient brackets the dividend between two consecutive multiples on the dividend's side of zero |
| Variants.Variant.SideLength | src/main/java/constants/Constants.java:12-14 | big balls are 60 pixels wide, medium 40, small 20 |
| Variants.Variant.RandomnessFactor | src/main/java/constants/Constants.java:16-17 | easy balls have randomness factor 1, hard balls 2 |
| Variants.AllVariantsEnumerates | src/main/java/models/BallPoolService.java:37-42 | the six registry keys are pairwise distinct and include every variant |
| Variants.AllVariantsComplete | src/main/java/models/BallPoolService.java:37-42 | every variant is one of the registry's keys |
| Paddles.NextPaddleY | src/main/java/models/PaddleModel.java:134-152 | a still paddle stays where it is; a moving one goes up or down by its velocity, clamped to the roof (0) and the floor (floor - height), so it ends inside the field |
| Paddles.Paddle.constructor | src/main/java/models/PaddleModel.java:27-30 | a new paddle has speed 8, reads the field height as its floor, and starts at 0 with no velocity |
| Paddles.Paddle.DimensionsAndPosition | src/main/java/models/PaddleModel.java:82-84 | the view gets the four values x, y, width and height, in that order |
| Paddles.Paddle.SetX | src/main/java/models/PaddleModel.java:91-93 | sets x and nothing else |
| Paddles.Paddle.SetY | src/main/java/models/PaddleModel.java:100-102 | sets y and nothing else |
| Paddles.Paddle.SetHeight | src/main/java/models/PaddleModel.java:109-111 | sets the height and nothing else |
| Paddles.Paddle.SetWidth | src/main/java/models/PaddleModel.java:118-120 | sets the width and nothing else |
| Paddles.Paddle.SetYVelocity | src/main/java/models/PaddleModel.java:127-129 | sets the vertical velocity and nothing else |
| Paddles.Paddle.MovePaddle | src/main/java/models/PaddleModel.java:134-152 | one move changes only y, to NextPaddleY; a moving paddle ends between roof and floor |
| Balls.Nudge | src/main/java/models/balls/AbstractBallModel.java:173-176 | a random nudge is 0 or minus the randomness factor, never plus: the draw `nextInt(2) - 1` is -1 or 0 |
| Balls.MissPhase | src/main/java/models/balls/AbstractBallModel.java:116-118 | the miss flag is recomputed only when the ball moves horizontally; it is set exactly when the next x leaves the field, and x advances only when it is not set |
| Balls.BouncePhase | src/main/java/models/balls/AbstractBallModel.java:154-168 | past the roof the ball sits at 0; past the floor it sits at floor - side; in both cases the y velocity is negated and the x velocity nudged; otherwise y advances; a vertically moving ball ends inside the field |
| Balls.PaddlePhase | src/main/java/models/balls/AbstractBallModel.java:184-206 | a hit on the left paddle puts the ball at its front; a hit on the right paddle puts it side pixels before that paddle; a hit negates the x velocity and nudges the y velocity; the left paddle wins when both are hit; with no hit nothing changes |
| Balls.RoofBounceThenPaddle1 | src/main/java/models/balls/AbstractBallModel.java:112-125 | the three phases compose in the source's order: after a roof bounce and a left-paddle hit in one step, the ball ends at the paddle's front at y 0, with each velocity reversed and nudged in the order the source applies them |
| Balls.StepMissFlag | src/main/java/models/balls/AbstractBallModel.java:116-118 | after a full step the miss flag is that of the miss phase: unchanged when the ball does not move horizontally, and otherwise set exactly when the next x is out of bounds |
| Balls.Ball.constructor | src/main/java/models/balls/AbstractBallModel.java:31-35 | a new ball of a variant rests at the origin, unmissed, and reads the field bounds |
| Balls.Ball.MoveBall | src/main/java/models/balls/AbstractBallModel.java:112-125 | one move takes the ball's motion to Step of its old motion: miss, then bounce, then paddle hit |
| Balls.Ball.DetectMiss | src/main/java/models/balls/AbstractBallModel.java:133-147 | reports a miss exactly when the next x is left of -side or right of the right wall; x advances only when there is no miss |
| Balls.Ball.DetectBounce | src/main/java/models/balls/AbstractBallModel.java:154-168 | the new motion is BouncePhase of the old one |
| Balls.Ball.RandomiseXVelocity | src/main/java/models/balls/AbstractBallModel.java:173-176 | adds one nudge to the x velocity |
| Balls.Ball.DetectPaddleHit | src/main/java/models/balls/AbstractBallModel.java:184-206 | the new motion is PaddlePhase of the old one against both paddles' rectangles |
| Balls.Ball.RandomiseYVelocity | src/main/java/models/balls/AbstractBallModel.java:211-214 | adds one nudge to the y velocity |
| BallPools.EmptyPools | src/main/java/models/BallPoolService.java:35-44 | the registry starts with an empty pool for every variant |
| BallPools.Offer | src/main/java/models/BallPoolService.java:81-86 | a ball joins the tail of its own variant's pool; no other pool changes |
| BallPools.Poll | src/main/java/models/BallPoolService.java:64-68 | polling an empty pool yields None and changes nothing; otherwise it yields the head and leaves the rest; other pools are untouched |
| BallPools.Head | src/main/java/models/BallPoolService.java:64-68 | the ball a poll of a non-empty pool hands out |
| BallPools.OfferAll | src/main/java/models/BallPoolService.java:95-100 | offering a list keeps a pool for every variant |
| BallPools.OfVariant | src/main/java/models/BallPoolService.java:95-100 | the balls of one variant taken from a list are balls of that list, of that variant |
| BallPools.OfferAllContents | src/main/java/models/BallPoolService.java:95-100 | returning a list appends to each pool exactly the balls of its variant, in list order |
| BallPools.PooledOffer | src/main/java/models/BallPoolService.java:81-86 | offering adds exactly that ball to the registry's contents |
| BallPools.PooledPoll | src/main/java/models/BallPoolService.java:64-68 | polling removes exactly the ball it yields from the registry's contents |
| BallPools.PooledOfferAll | src/main/java/models/BallPoolService.java:95-100 | returning a list adds exactly those balls to the registry's contents |
| BallPools.PollEmpty | src/main/java/models/BallPoolService.java:64-68 | a poll yields None exactly when the pool is empty |
| BallPools.OfferThenPoll | src/main/java/models/BallPoolService.java:64-68 | on an empty pool, the ball just offered is the ball polled next, and the pools are as before |
| BallPools.OfferKeepsHead | src/main/java/models/BallPoolService.java:81-86 | FIFO: offering to a non-empty pool does not change which ball is polled next |
| BallPools.BallPoolService.constructor | src/main/java/models/BallPoolService.java:35-44 | one empty pool for each of the six variants |
| BallPools.BallPoolService.ConsumeBall | src/main/java/models/BallPoolService.java:64-68 | the result and the new pools are those of Poll |
| BallPools.BallPoolService.ProduceBall | src/main/java/models/BallPoolService.java:81-86 | a new ball of the variant, knowing the field bounds, is offered to its pool; a failed construction changes nothing |
| BallPools.BallPoolService.ReturnBalls | src/main/java/models/BallPoolService.java:95-100 | the new pools are OfferAll of the old ones: each pool gains exactly the returned balls of its variant, in order |
| BallPools.BallPoolService.IsBallPoolEmpty | src/main/java/models/BallPoolService.java:110-114 | true exactly when the pool holds no ball |
| BallPools.BallPoolService.AmountOfAvailableBalls | src/main/java/models/BallPoolService.java:121-124 | maps every variant to the size of its pool, which is zero exactly when that pool is empty |
| BallFactories.SizeForDraw | src/main/java/models/balls/AbstractBallFactory.java:59-66 | draws 0, 1 and 2 pick big, medium and small; any other value is the exception branch |
| BallFactories.SizeForDrawBijective | src/main/java/models/balls/AbstractBallFactory.java:59-66 | every size is picked by exactly one draw |
| BallFactories.SpawnVelocity | src/main/java/models/balls/EasyBallFactory.java:33-34 | a launch velocity component is plus or minus the level, with the sign chosen by the draw |
| BallFactories.BallFactory.constructor | src/main/java/models/balls/AbstractBallFactory.java:34-43 | level 1, the wait interval, and the centre of the field as spawn point |
| BallFactories.BallFactory.SetLevel | src/main/java/models/balls/AbstractBallFactory.java:50-52 | sets the level and nothing else |
| BallFactories.BallFactory.CreateBall | src/main/java/models/balls/EasyBallFactory.java:32-58 | takes the head of the pool of this factory's difficulty and the size, puts it at the centre, and gives it velocity (plus or minus level, plus or minus level) |
| BallFactories.BallFactory.CreateBallOfRandomSize | src/main/java/models/balls/AbstractBallFactory.java:59-66 | exactly one CreateBall for the size the draw picks: one poll of that variant's pool, the ball at the centre with velocities of plus or minus the level, and its miss flag kept as it was |
| Pong.ElapsedSeconds | src/main/java/models/PongModel.java:243-245 | whole seconds between start and now, truncated toward zero, also when now is before the start |
| Pong.BatchCount | src/main/java/models/PongModel.java:117-119 | a batch submits exactly five production tasks, all for the pool being topped up |
| Pong.SupplyRequestsIssuedAll | src/main/java/models/PongModel.java:113-128 | a supply pass submits tasks exactly when some pool holds fewer than ten balls |
| Pong.SupplyRequestsCount | src/main/java/models/PongModel.java:113-128 | a supply pass asks for five balls of each variant whose pool is below ten, and none of any other |
| Pong.ToppedUp | src/main/java/models/PongModel.java:116-120 | a pass never shrinks a pool and leaves at least five in it; the pool reaches ten exactly when it held at least five |
| Pong.SupplyPassCanStayBelowMinimum | src/main/java/models/PongModel.java:116-120 | one pass does not always reach the minimum: a pool of three becomes eight |
| Pong.SpawnVariantsAtMostTwo | src/main/java/models/PongModel.java:146-155 | one spawn takes at most two balls of any variant |
| Pong.TakeAll | src/main/java/models/PongModel.java:146-155 | a spawn takes one ball of each requested variant, in order, and keeps a pool for every variant |
| Pong.TakeAllConserves | src/main/java/models/PongModel.java:146-155 | the spawned balls plus what is left in the pools are exactly the balls the pools held |
| Pong.TakeAllKeepsExclusive | src/main/java/models/PongModel.java:146-155 | moving balls from the pools into play keeps every ball in exactly one place |
| Pong.TakeAllKeepsPopulation | src/main/java/models/PongModel.java:146-155 | moving balls from the pools into play neither loses nor makes a ball |
| Pong.TakeAllKeepsInField | src/main/java/models/PongModel.java:146-155 | moving balls from the pools into play keeps every ball made for the model's field |
| Pong.PollKeepsExclusive | src/main/java/models/BallPoolService.java:64-68 | moving one pool's head into play keeps every ball in exactly one place |
| Pong.OfferKeepsExclusive | src/main/java/models/BallPoolService.java:81-86 | pooling a ball the game did not know of keeps every ball in exactly one place |
| Pong.Missed | src/main/java/models/PongModel.java:214-218 | the collected balls are exactly the missed balls of the list |
| Pong.Unmissed | src/main/java/models/PongModel.java:205 | the balls left in play are exactly the unmissed balls of the list |
| Pong.RemoveAll | src/main/java/models/PongModel.java:205 | `removeAll` keeps exactly the balls not listed for removal |
| Pong.MissedPartition | src/main/java/models/PongModel.java:203-218 | the missed and the unmissed balls together are exactly the balls in play |
| Pong.RemoveAllMissed | src/main/java/models/PongModel.java:203-206 | removing the collected balls leaves exactly the unmissed balls, in order |
| Pong.ReturnKeepsExclusive | src/main/java/models/PongModel.java:203-207 | returning the missed balls keeps every ball in exactly one place |
| Pong.ReturnKeepsPopulation | src/main/java/models/PongModel.java:203-207 | returning the missed balls neither loses nor makes a ball |
| Pong.ReturnKeepsInField | src/main/java/models/PongModel.java:203-207 | returning the missed balls keeps every ball made for the model's field |
| Pong.PoolsSuppliedDone | src/main/java/models/PongModel.java:113-128 | after visiting every variant, every pool keeps its old balls in front and is topped up |
| Pong.ToppedUpSpawns | src/main/java/models/PongModel.java:81-87 | after a supply pass every pool holds enough balls for any spawn, so the factories' wait for a ball ends |
| Pong.PongModel.constructor | src/main/java/models/PongModel.java:56-75 | paddle sizes and starting places follow from the bounds by truncating division; the pools are empty, no ball is in play, level 0, easy mode; both paddles have speed 8 and stand still |
| Pong.PongModel.ResetState | src/main/java/models/PongModel.java:93-106 | both paddles go to their starting places and sizes; level 1, easy mode |
| Pong.PongModel.ExecuteProducerTask | src/main/java/models/ThreadPoolManager.java:46-49 | a submitted production task is logged and appends one new ball to its pool |
| Pong.PongModel.ProduceBatch | src/main/java/models/PongModel.java:117-119 | five tasks for one variant: that pool grows by five new balls behind its old ones, and the others are unchanged |
| Pong.PongModel.SupplyPool | src/main/java/models/PongModel.java:115-125 | one pool's turn: it is topped up, and the flag is raised once any pool needed balls |
| Pong.PongModel.EnsureBallSupply | src/main/java/models/PongModel.java:113-128 | reports tasks exactly when some pool held fewer than ten balls; every pool is topped up; the task log grows by the pass's requests |
| Pong.PongModel.AddBallsToGame | src/main/java/models/PongModel.java:146-155 | in hard mode two hard balls, else one easy ball, each taken from the head of its pool and appended to the balls in play, launched from the centre at the current level's speed; the factory used is set to the current level |
| Pong.PongModel.AddHardBalls | src/main/java/models/PongModel.java:147-150 | the hard factory is set to the level and two balls are taken, in order |
| Pong.PongModel.AddEasyBall | src/main/java/models/PongModel.java:151-153 | the easy factory is set to the level and one ball is taken |
| Pong.PongModel.AddTwoBalls | src/main/java/models/PongModel.java:148-149 | two balls are taken from the factory's pools, in order, and appended to the balls in play |
| Pong.PongModel.AddFromFactory | src/main/java/models/PongModel.java:152 | one ball is taken from the factory's pool and appended to the balls in play |
| Pong.PongModel.MoveBalls | src/main/java/models/PongModel.java:160-164 | every ball in play makes one Step with its own draws, within the model's own field bounds |
| Pong.PongModel.MovePaddles | src/main/java/models/PongModel.java:169-172 | each paddle makes one move clamped between 0 and the model's field height minus the paddle's height |
| Pong.PongModel.AdvanceLevel | src/main/java/models/PongModel.java:189-194 | the level goes up by one; hard mode turns on once the level passes 5 and never turns off |
| Pong.PongModel.SupplyAndSpawn | src/main/java/models/PongModel.java:196-197 | a supply pass then a spawn: reports tasks exactly when some pool was below ten; the new balls in play are the spawn's variants, launched from the centre |
| Pong.PongModel.NextLevel | src/main/java/models/PongModel.java:188-198 | the level goes up by one, hard mode follows the level, and one easy or two hard balls come into play behind the old ones |
| Pong.PongModel.CheckIfNextLevel | src/main/java/models/PongModel.java:177-182 | when the elapsed seconds are a non-zero multiple of 15, the level goes up by one, hard mode is on exactly when it was or the level passes 5, and one easy or two hard new balls join the end of play, launched from the centre at the level's speed; otherwise the level, mode, balls, pools, task log and factory levels are unchanged |
| Pong.PongModel.SetInitialState | src/main/java/models/PongModel.java:81-87 | paddles reset, level 1, easy mode; it waits exactly when the supply pass submitted tasks; one easy ball comes into play at the centre with speed 1 on both axes |
| Pong.PongModel.ReturnMissedBallsToPool | src/main/java/models/PongModel.java:203-207 | the balls in play become the unmissed ones, in order; the missed ones are appended to their pools, in order |
| Pong.PongModel.StartGameTimer | src/main/java/models/PongModel.java:223-225 | the start time becomes now |
| Pong.PongModel.UpdateElapsedSeconds | src/main/java/models/PongModel.java:230-236 | the elapsed seconds become the whole seconds since the start; observers are notified exactly when that value changed |
| Pong.PongModel.IsGameOver | src/main/java/models/PongModel.java:313-315 | the game is over exactly when no ball is in play, that is, when every ball the game knows of is back in the registry |
| Pong.PongModel.ResultLine | src/main/java/models/PongModel.java:282-288 | the written line is the chosen writer's line for the current level and elapsed seconds; with the plain writer, both can be read back from it |
| Controller.Press | src/main/java/controllers/PongController.java:140-164 | a press marks its key held and moves that key's paddle at full speed in the key's direction (W and Up upward); the other paddle is untouched; other keys change nothing |
| Controller.Release | src/main/java/controllers/PongController.java:173-205 | a release clears its key and stops the paddle only when the opposite key is not held; otherwise the velocity is kept; other keys change nothing |
| Controller.IdleConsistent | src/main/java/controllers/PongController.java:28-31 | no key held and still paddles is a consistent state |
| Controller.PressKeepsConsistent | src/main/java/controllers/PongController.java:140-164 | after a press each paddle still moves exactly while one of its keys is held, and only at full speed |
| Controller.ReleaseKeepsConsistent | src/main/java/controllers/PongController.java:173-205 | after a release each paddle still moves exactly while one of its keys is held, and only at full speed |
| Controller.ReleaseUndoesPress | src/main/java/controllers/PongController.java:140-205 | when neither key of a paddle is held, pressing and then releasing one of them restores the controls |
| Controller.ReleaseKeepsLastDirection | src/main/java/controllers/PongController.java:179-190 | pressing Up, then Down, then releasing Down leaves the right paddle moving down, although only Up is held |
| Controller.PongController.constructor | src/main/java/controllers/PongController.java:41-48 | a new controller holds no key, over a model whose paddles stand still |
| Controller.PongController.KeyPressed | src/main/java/controllers/PongController.java:140-164 | flags and velocities become Press of the old ones, and consistency is kept |
| Controller.PongController.KeyReleased | src/main/java/controllers/PongController.java:173-205 | flags and velocities become Release of the old ones, and consistency is kept |
| ResultWriters.DigitChar | src/main/java/controllers/writers/ResultWriter.java:16 | the character of a decimal digit |
| ResultWriters.DigitValue | src/main/java/controllers/writers/ResultWriter.java:16 | reads a digit character back; None exactly for non-digits |
| ResultWriters.Digits | src/main/java/controllers/writers/ResultWriter.java:16 | the base-ten digits of a natural number: non-empty, all digits, no leading zero |
| ResultWriters.DecimalString | src/main/java/controllers/writers/ResultWriter.java:16 | the rendering of an int: a leading minus exactly for negatives, then digits, never a space or a newline |
| ResultWriters.ParseDigits | src/main/java/controllers/writers/ResultWriter.java:16 | the game writes numbers but never reads them back; this reader is the reference inverse of the digit rendering, and DigitsRoundTrip connects the two; an empty string reads as None |
| ResultWriters.ParseDecimal | src/main/java/controllers/writers/ResultWriter.java:16 | the reference inverse of the `int` rendering the text uses, which DecimalRoundTrip and ResultRoundTrip use; an empty string reads as None |
| ResultWriters.DigitsRoundTrip | src/main/java/controllers/writers/ResultWriter.java:16 | reading the digits of n gives n |
| ResultWriters.DecimalRoundTrip | src/main/java/controllers/writers/ResultWriter.java:16 | reading the rendering of any int gives that int |
| ResultWriters.DecimalInjective | src/main/java/controllers/writers/ResultWriter.java:16 | two ints with the same rendering are equal |
| ResultWriters.ResultString | src/main/java/controllers/writers/ResultWriter.java:15-16 | the text starts with "Result: Level " and ends with " seconds"; between them are the level, " Time survived: " and the time |
| ResultWriters.FirstSpace | src/main/java/controllers/writers/ResultWriter.java:16 | the first space, where a rendered level ends |
| ResultWriters.ResultRoundTrip | src/main/java/controllers/writers/ResultWriter.java:16 | level and time can be read back from the result text |
| ResultWriters.ResultInjective | src/main/java/controllers/writers/ResultWriter.java:16 | equal result texts come from equal levels and times |
| ResultWriters.SanitizeDate | src/main/java/controllers/writers/ResultAndDateWriter.java:20-25 | same length; each '-' becomes '_' and every other character is kept |
| ResultWriters.SanitizeIdempotent | src/main/java/controllers/writers/ResultAndDateWriter.java:23 | the sanitised date has no '-', and sanitising it again changes nothing |
| ResultWriters.ResultAndDateString | src/main/java/controllers/writers/ResultAndDateWriter.java:19-28 | the sanitised date, one space, then exactly the plain result text for the same level and time |
| ResultWriters.ResultAndDateRoundTrip | src/main/java/controllers/writers/ResultAndDateWriter.java:27 | for a date without spaces, the first space ends the date part, and level and time can be read back from the rest |
| ResultWriters.WriterText | src/main/java/controllers/writers/AbstractResultWriter.java:34-38 | the chosen writer's text, from which level and time can be read back |
| ResultWriters.ResultLine | src/main/java/controllers/writers/AbstractResultWriter.java:70 | the written line is the writer's text followed by one newline |

## Left out

- Threads: the executor, futures and the factories' sleep-and-retry loop are not modelled. A
  production task runs to completion when submitted, so `awaitProducerFutures` has nothing to
  wait for. The factories' wait for a non-empty pool is a precondition of `CreateBall`;
  `ToppedUpSpawns` proves the game always meets it after a supply pass.
- Reflection: the registry builds balls by reflective constructor calls. `ProduceBall` takes a
  flag saying whether construction fails. The game passes "succeeds", because every ball class has
  the constructor the lookup asks for.
- Integer width: Java's 32-bit `int` overflow and the `long` to `int` cast in
  `updateElapsedSeconds` are not modelled. Levels, times and velocities are unbounded integers.
- Observers and the Swing UI: notifications are the `notified` result of
  `UpdateElapsedSeconds`, and `checkIfNextLevel` is a separate call. The timer loop
  (`actionPerformed`), `startGame`, `gameOver`, the dialogs and the views are not part of this
  model.
- File output: opening the result file, the UTF-8 encoding and the writer thread are not
  modelled. `ResultLine` gives the exact line written.
- Map iteration order: `HashMap.forEach` order is the `order` parameter, a list holding each
  variant once.
- Null balls: in the source, a failed poll makes a factory hand a null ball to the game. The pools
  are never empty when a factory polls, so `CreateBall` always yields a ball. The null case never
  arises and is not carried into play.
- A ball taken again from the pool keeps its `wasMissed` flag until its next horizontal move
  recomputes it. The model does the same and does not reset it.
- Pong.PongModel.SupplyAndSpawn: does not restate the producer task log. `EnsureBallSupply`
  states it, and the task log does not affect later behaviour.
- Pong.PongModel.AddBallsToGame: states each new ball's velocity as plus or minus the level, not
  which sign each draw chose. `CreateBall` states the signs.
- Pong.PongModel.NextLevel: states the difficulty of the new balls but not their sizes, and
  states their velocities as plus or minus the level. It also does not restate the task log or
  the pools. `SupplyAndSpawn` states the exact variants, and `EnsureBallSupply` states the task
  log and the pools.
- Pong.PongModel.MoveBalls: requires that no ball occurs twice in play (part of `Exclusive`).
  The source never puts a ball into play twice.
