/**
 * The game loop of the view controller: the tick timer, the game status, the
 * adaptive tick wait, the key handling and the weighted choice of background
 * sprites. The snake, the score, the stars and the background sprite layer are
 * collaborators whose code is not part of this model: the calls made to them
 * are recorded, in order, in an effect log, and the answers they give (is the
 * snake on food, did the move succeed, is a direction a reversal, what did the
 * random number source draw) are inputs.
 */
module GameLoop {
  import opened Wrappers

  datatype GameStatus = Running | Paused | Stopped

  datatype Direction = Up | Down | Left | Right

  function Opposite(d: Direction): Direction
  {
    match d
    case Up => Down
    case Down => Up
    case Left => Right
    case Right => Left
  }

  /** A key press, already looked up in the movement map and the key constants. */
  datatype Key = MoveKey(direction: Direction) | SKey | PKey | NKey | OtherKey

  datatype BackgroundSprite = Bush | Crater | Rocks | Grass

  /** A single-shot tick timer: its interval in seconds and whether it is still valid. */
  datatype Timer = Timer(intervalSeconds: real, valid: bool)

  /** A call made on a collaborator or on the timer. */
  datatype Effect =
    | ScoreReset | ScoreEat | ScoreMove
    | SnakeReset | SnakeOneEighty(asked: Direction) | SnakeSetDirection(direction: Direction)
    | SnakeEatFoodIfOnFood | SnakeMove
    | StarsReset
    | LayerClear | LayerAddSprite(sprite: BackgroundSprite) | LayerUpdateSprites
    | TimerInvalidate | TimerScheduled(intervalSeconds: real)

  /**
   * Constants the controller is built with: `MAX_TICK_MILLISECONDS`,
   * `NUM_BACKGROUND_SPRITES`, and the natural logarithm `log_e`, left
   * uninterpreted.
   */
  datatype Config = Config(maxTickWait: real, backgroundSpriteCount: nat, logE: real -> real)

  /** What the collaborators answer during one key event. */
  datatype Answers = Answers(
    oneEighty: Direction -> bool,  // snake.oneEighty(d)
    onFood: bool,                  // snake.eatFoodIfOnFood()
    moveOk: bool,                  // snake.move()
    roll: nat -> int)              // the i-th draw of getRandomNum(100) during a reset

  /** The controller's state: status, tick wait (milliseconds), timer, and the calls made so far. */
  datatype Game = Game(status: GameStatus, tickWait: real, timer: Option<Timer>, effects: seq<Effect>)

  /** A timer is armed when one exists and is still valid. */
  predicate Armed(g: Game)
  {
    g.timer.Some? && g.timer.value.valid
  }

  function Invalidated(t: Option<Timer>): Option<Timer>
  {
    if t.Some? then Some(t.value.(valid := false)) else None
  }

  /** The `invalidate()` call `tick` makes when a timer exists. */
  function InvalidateCalls(t: Option<Timer>): seq<Effect>
  {
    if t.Some? then [TimerInvalidate] else []
  }

  /** The timer `scheduleTick` starts for a wait of `wait` milliseconds. */
  function TimerFor(wait: real): Timer
  {
    Timer(wait / 1000.0, true)
  }

  // ---------------------------------------------------------------------------
  // Background sprites

  /** The sprite kind for one draw of the random number source. */
  function GetBackgroundSprite(roll: int): (r: BackgroundSprite)
    ensures r == Bush <==> 1 <= roll <= 10
    ensures r == Crater <==> 11 <= roll <= 25
    ensures r == Rocks <==> 26 <= roll <= 50
    ensures r == Grass <==> roll < 1 || 50 < roll
  {
    if 1 <= roll <= 10 then Bush
    else if 11 <= roll <= 25 then Crater
    else if 26 <= roll <= 50 then Rocks
    else Grass
  }

  /** How many rolls in [lo, hi) give `kind`. */
  function CountOf(kind: BackgroundSprite, lo: int, hi: int): nat
    decreases hi - lo
  {
    if hi <= lo then 0
    else (if GetBackgroundSprite(lo) == kind then 1 else 0) + CountOf(kind, lo + 1, hi)
  }

  lemma {:induction false} CountSplit(kind: BackgroundSprite, lo: int, mid: int, hi: int)
    requires lo <= mid <= hi
    ensures CountOf(kind, lo, hi) == CountOf(kind, lo, mid) + CountOf(kind, mid, hi)
    decreases mid - lo
  {
    if lo < mid {
      CountSplit(kind, lo + 1, mid, hi);
    }
  }

  /** On a range where every roll gives `band`, the count is the range's length or zero. */
  lemma {:induction false} CountBand(kind: BackgroundSprite, band: BackgroundSprite, lo: int, hi: int)
    requires lo <= hi
    requires forall n :: lo <= n < hi ==> GetBackgroundSprite(n) == band
    ensures CountOf(kind, lo, hi) == if kind == band then hi - lo else 0
    decreases hi - lo
  {
    if lo < hi {
      CountBand(kind, band, lo + 1, hi);
    }
  }

  /** The number of rolls out of a hundred that give `kind`. */
  function Weight(kind: BackgroundSprite): nat
  {
    match kind
    case Bush => 10
    case Crater => 15
    case Rocks => 25
    case Grass => 50
  }

  /** `n` when `kind` is `of`, else 0: the part of a run of `n` rolls of kind `of` that counts for `kind`. */
  function Share(kind: BackgroundSprite, of: BackgroundSprite, n: int): int
  {
    if kind == of then n else 0
  }

  lemma WeightIsShares(kind: BackgroundSprite)
    ensures Weight(kind) == Share(kind, Bush, 10) + Share(kind, Crater, 15) + Share(kind, Rocks, 25) + Share(kind, Grass, 50)
    ensures Share(kind, Grass, 1) + Share(kind, Grass, 49) == Share(kind, Grass, 50)
  {
  }

  // The counts from 51, 26, 11 and 1 up to `hi`, one band at a time.

  lemma {:induction false} CountFrom51(kind: BackgroundSprite, hi: int)
    requires 51 <= hi <= 101
    ensures CountOf(kind, 51, hi) == Share(kind, Grass, hi - 51)
  {
    CountBand(kind, Grass, 51, hi);
  }

  lemma {:induction false} CountFrom26(kind: BackgroundSprite, hi: int)
    requires 51 <= hi <= 101
    ensures CountOf(kind, 26, hi) == Share(kind, Rocks, 25) + Share(kind, Grass, hi - 51)
  {
    CountFrom51(kind, hi);
    CountBand(kind, Rocks, 26, 51);
    CountSplit(kind, 26, 51, hi);
  }

  lemma {:induction false} CountFrom11(kind: BackgroundSprite, hi: int)
    requires 51 <= hi <= 101
    ensures CountOf(kind, 11, hi) == Share(kind, Crater, 15) + Share(kind, Rocks, 25) + Share(kind, Grass, hi - 51)
  {
    CountFrom26(kind, hi);
    CountBand(kind, Crater, 11, 26);
    CountSplit(kind, 11, 26, hi);
  }

  lemma {:induction false} CountFrom1(kind: BackgroundSprite, hi: int)
    requires 51 <= hi <= 101
    ensures CountOf(kind, 1, hi)
         == Share(kind, Bush, 10) + Share(kind, Crater, 15) + Share(kind, Rocks, 25) + Share(kind, Grass, hi - 51)
  {
    CountFrom11(kind, hi);
    CountBand(kind, Bush, 1, 11);
    CountSplit(kind, 1, 11, hi);
  }

  /** Of the 100 equally likely rolls 1..100, `Weight(kind)` give `kind`: 10 bush, 15 crater, 25 rocks, 50 grass. */
  lemma {:induction false} BackgroundSpriteWeightsFromOne(kind: BackgroundSprite)
    ensures CountOf(kind, 1, 101) == Weight(kind)
  {
    CountFrom1(kind, 101);
    WeightIsShares(kind);
  }

  /** The same weights when the rolls run over 0..99. */
  lemma {:induction false} BackgroundSpriteWeightsFromZero(kind: BackgroundSprite)
    ensures CountOf(kind, 0, 100) == Weight(kind)
  {
    CountFrom1(kind, 100);
    CountBand(kind, Grass, 0, 1);
    CountSplit(kind, 0, 1, 100);
    WeightIsShares(kind);
  }

  /** The calls `resetBackgroundSprites` makes on the sprite layer for `count` draws. */
  function BackgroundSpriteEffects(count: nat, roll: nat -> int): (r: seq<Effect>)
    ensures |r| == count + 2
    ensures r[0] == LayerClear && r[count + 1] == LayerUpdateSprites
    ensures forall i :: 0 <= i < count ==> r[i + 1] == LayerAddSprite(GetBackgroundSprite(roll(i)))
  {
    [LayerClear] + seq(count, i requires 0 <= i => LayerAddSprite(GetBackgroundSprite(roll(i)))) + [LayerUpdateSprites]
  }

  // ---------------------------------------------------------------------------
  // The transitions, on values

  /** `scheduleTick`: arms a timer only while Running and only when none is valid. */
  function Scheduled(g: Game): (r: Game)
    ensures r.status == g.status && r.tickWait == g.tickWait
    ensures g.status != Running || Armed(g) ==> r == g
    ensures g.status == Running && !Armed(g) ==>
      r.timer == Some(TimerFor(g.tickWait)) && r.effects == g.effects + [TimerScheduled(g.tickWait / 1000.0)]
    ensures Armed(r) <==> Armed(g) || g.status == Running
  {
    if g.status != Running then g
    else if Armed(g) then g
    else g.(timer := Some(TimerFor(g.tickWait)), effects := g.effects + [TimerScheduled(g.tickWait / 1000.0)])
  }

  /** `tick`, given what `snake.eatFoodIfOnFood()` and `snake.move()` answer. */
  function Ticked(g: Game, logE: real -> real, onFood: bool, moveOk: bool): (r: Game)
    // the previous timer is never left valid: it is invalidated or replaced by a fresh one
    ensures r.timer == Invalidated(g.timer) || r.timer == Some(TimerFor(r.tickWait))
    ensures g.status != Running ==>
      r == g.(timer := Invalidated(g.timer), effects := g.effects + InvalidateCalls(g.timer))
    // the pending timer is invalidated first; a new one is scheduled only after the move
    ensures g.status == Running ==>
      r.effects == g.effects + InvalidateCalls(g.timer)
                 + [SnakeEatFoodIfOnFood, if onFood then ScoreEat else ScoreMove, SnakeMove]
                 + (if moveOk then [TimerScheduled(r.tickWait / 1000.0)] else [])
    ensures g.status == Running ==>
      r.tickWait == if onFood then g.tickWait - logE(g.tickWait) else g.tickWait
    ensures g.status == Running && !moveOk ==> r.status == Stopped && !Armed(r)
    ensures g.status == Running && moveOk ==> r.status == Running && r.timer == Some(TimerFor(r.tickWait))
  {
    var disarmed := g.(timer := Invalidated(g.timer), effects := g.effects + InvalidateCalls(g.timer));
    if g.status != Running then disarmed
    else
      var scored :=
        if onFood then
          disarmed.(tickWait := g.tickWait - logE(g.tickWait),
                    effects := disarmed.effects + [SnakeEatFoodIfOnFood, ScoreEat])
        else
          disarmed.(effects := disarmed.effects + [SnakeEatFoodIfOnFood, ScoreMove]);
      var moved := scored.(effects := scored.effects + [SnakeMove]);
      if !moveOk then moved.(status := Stopped) else Scheduled(moved)
  }

  /** `resetGame`, given the draws of the random number source. */
  function AfterReset(g: Game, config: Config, roll: nat -> int): (r: Game)
    ensures r.status == Running && r.tickWait == config.maxTickWait && Armed(r)
    ensures r.effects == g.effects + BackgroundSpriteEffects(config.backgroundSpriteCount, roll)
                                   + [ScoreReset, SnakeReset, StarsReset]
                                   + (if Armed(g) then [] else [TimerScheduled(config.maxTickWait / 1000.0)])
    // a timer that is still valid is kept, with the interval it was started with
    ensures r.timer == if Armed(g) then g.timer else Some(TimerFor(config.maxTickWait))
  {
    var effects := g.effects + BackgroundSpriteEffects(config.backgroundSpriteCount, roll) + [ScoreReset];
    var restarted := Game(Running, config.maxTickWait, g.timer, effects + [SnakeReset, StarsReset]);
    Scheduled(restarted)
  }

  /** `handleKeyEvent`. */
  function AfterKey(g: Game, config: Config, key: Key, answers: Answers): (r: Game)
    // a reversal only asks the snake
    ensures key.MoveKey? && answers.oneEighty(Opposite(key.direction)) ==>
      r == g.(effects := g.effects + [SnakeOneEighty(Opposite(key.direction))])
    ensures key.MoveKey? && !answers.oneEighty(Opposite(key.direction)) ==>
      r == Ticked(g.(effects := g.effects + [SnakeOneEighty(Opposite(key.direction)), SnakeSetDirection(key.direction)]),
                  config.logE, answers.onFood, answers.moveOk)
    ensures key == SKey && g.status == Running ==> r == g
    ensures key == SKey && g.status == Stopped ==> r == AfterReset(g, config, answers.roll)
    ensures key == SKey && g.status == Paused ==> r == Scheduled(g.(status := Running)) && r.status == Running && Armed(r)
    ensures key == PKey ==> r == g.(status := Paused)
    ensures key == NKey ==> r == AfterReset(g, config, answers.roll)
    ensures key == OtherKey ==> r == g
  {
    match key
    case MoveKey(d) =>
      var asked := g.(effects := g.effects + [SnakeOneEighty(Opposite(d))]);
      if answers.oneEighty(Opposite(d)) then asked
      else Ticked(asked.(effects := asked.effects + [SnakeSetDirection(d)]), config.logE, answers.onFood, answers.moveOk)
    case SKey =>
      (match g.status
       case Running => g
       case Stopped => AfterReset(g, config, answers.roll)
       case Paused => Scheduled(g.(status := Running)))
    case PKey => g.(status := Paused)
    case NKey => AfterReset(g, config, answers.roll)
    case OtherKey => g
  }

  // ---------------------------------------------------------------------------
  // Properties of the transitions

  /**
   * The timer discipline after a reset: a running game always has a tick
   * pending and a stopped one never has.
   */
  predicate Settled(g: Game)
  {
    (g.status == Running ==> Armed(g)) && (g.status == Stopped ==> !Armed(g))
  }

  lemma ResetSettles(g: Game, config: Config, roll: nat -> int)
    ensures Settled(AfterReset(g, config, roll))
  {
  }

  lemma TickKeepsSettled(g: Game, logE: real -> real, onFood: bool, moveOk: bool)
    requires Settled(g)
    ensures Settled(Ticked(g, logE, onFood, moveOk))
  {
  }

  lemma KeyKeepsSettled(g: Game, config: Config, key: Key, answers: Answers)
    requires Settled(g)
    ensures Settled(AfterKey(g, config, key, answers))
  {
  }

  /** Once a move collides, no tick is scheduled again until a reset. */
  lemma CollisionStopsTicking(g: Game, logE: real -> real, onFood: bool)
    requires g.status == Running
    ensures var r := Ticked(g, logE, onFood, false);
      r.status == Stopped && !Armed(r) && Scheduled(r) == r
  {
  }

  /**
   * A tick from a direction key cancels the pending timer before it scores and
   * moves, and arms a new one only afterwards: one tick, never two.
   */
  lemma DirectionTickCancelsPendingTimer(g: Game, config: Config, d: Direction, answers: Answers)
    requires g.status == Running && Armed(g)
    requires !answers.oneEighty(Opposite(d)) && answers.moveOk
    ensures var r := AfterKey(g, config, MoveKey(d), answers);
      r.effects == g.effects + [SnakeOneEighty(Opposite(d)), SnakeSetDirection(d), TimerInvalidate,
                                SnakeEatFoodIfOnFood, if answers.onFood then ScoreEat else ScoreMove, SnakeMove,
                                TimerScheduled(r.tickWait / 1000.0)] &&
      r.timer == Some(TimerFor(r.tickWait))
  {
  }

  /** No score call, no move and no new timer among `es`. */
  predicate NoProgress(es: seq<Effect>)
  {
    forall i :: 0 <= i < |es| ==>
      !es[i].ScoreEat? && !es[i].ScoreMove? && !es[i].SnakeMove? && !es[i].TimerScheduled?
  }

  /** A direction key or an unmapped key leaves a stopped game stopped, with nothing scored, moved or armed. */
  lemma StoppedUnderMoveKeys(g: Game, config: Config, key: Key, answers: Answers)
    requires Settled(g) && g.status == Stopped
    requires key.MoveKey? || key == OtherKey
    ensures var r := AfterKey(g, config, key, answers);
      r.status == Stopped && !Armed(r) && r.tickWait == g.tickWait &&
      |g.effects| <= |r.effects| && r.effects[..|g.effects|] == g.effects &&
      NoProgress(r.effects[|g.effects|..])
  {
  }

  /**
   * P then S brings a stopped game back to Running without a reset: the same
   * wait and no reset calls, only a new timer.
   */
  lemma PauseThenResumeRevivesStoppedGame(g: Game, config: Config, answers: Answers)
    requires Settled(g) && g.status == Stopped
    ensures var r := AfterKey(AfterKey(g, config, PKey, answers), config, SKey, answers);
      r.status == Running && Armed(r) && r.tickWait == g.tickWait &&
      r.effects == g.effects + [TimerScheduled(g.tickWait / 1000.0)]
  {
  }

  /**
   * Three eating ticks from a reset shrink the wait by log_e three times, each
   * re-arming a timer for the new wait; a fourth, non-eating tick keeps the wait.
   */
  lemma EatingSpeedsUp(g: Game, config: Config, roll: nat -> int)
    ensures
      var decay := (w: real) => w - config.logE(w);
      var g0 := AfterReset(g, config, roll);
      var g1 := Ticked(g0, config.logE, true, true);
      var g2 := Ticked(g1, config.logE, true, true);
      var g3 := Ticked(g2, config.logE, true, true);
      var g4 := Ticked(g3, config.logE, false, true);
      g1.tickWait == decay(config.maxTickWait) && g1.timer == Some(TimerFor(g1.tickWait)) &&
      g2.tickWait == decay(decay(config.maxTickWait)) && g2.timer == Some(TimerFor(g2.tickWait)) &&
      g3.tickWait == decay(decay(decay(config.maxTickWait))) && g3.timer == Some(TimerFor(g3.tickWait)) &&
      g4.tickWait == g3.tickWait && g4.status == Running && g4.timer == Some(TimerFor(g3.tickWait))
  {
  }

  // ---------------------------------------------------------------------------
  // The controller

  class GameViewController {
    const config: Config

    var gameStatus: GameStatus
    var currentTickWait: real
    var timer: Option<Timer>
    /** The calls made on the snake, the score, the stars and the sprite layer. */
    ghost var effects: seq<Effect>

    ghost function State(): Game
      reads this
    {
      Game(gameStatus, currentTickWait, timer, effects)
    }

    constructor (config: Config)
      ensures this.config == config
      ensures State() == Game(Running, config.maxTickWait, None, [])
    {
      this.config := config;
      gameStatus := Running;
      currentTickWait := config.maxTickWait;
      timer := None;
      effects := [];
    }

    method ScheduleTick()
      modifies this
      ensures State() == Scheduled(old(State()))
    {
      if gameStatus != Running {
        return;
      }
      if timer.Some? && timer.value.valid {
        return;
      }
      timer := Some(TimerFor(currentTickWait));
      effects := effects + [TimerScheduled(currentTickWait / 1000.0)];
    }

    method Tick(onFood: bool, moveOk: bool)
      modifies this
      ensures State() == Ticked(old(State()), config.logE, onFood, moveOk)
    {
      if timer.Some? {
        timer := Some(timer.value.(valid := false));
        effects := effects + [TimerInvalidate];
      }
      if gameStatus != Running {
        return;
      }
      effects := effects + [SnakeEatFoodIfOnFood];
      if onFood {
        effects := effects + [ScoreEat];
        currentTickWait := currentTickWait - config.logE(currentTickWait);
      } else {
        effects := effects + [ScoreMove];
      }
      effects := effects + [SnakeMove];
      if !moveOk {
        gameStatus := Stopped;
        return;
      }
      ScheduleTick();
    }

    /** Clears the layer, adds one sprite per draw, then pushes the new grid positions. */
    method ResetBackgroundSprites(roll: nat -> int)
      modifies this
      ensures State() == old(State()).(effects := old(effects) + BackgroundSpriteEffects(config.backgroundSpriteCount, roll))
    {
      ghost var start := effects + [LayerClear];
      effects := start;
      for i := 0 to config.backgroundSpriteCount
        invariant effects == start + seq(i, j requires 0 <= j => LayerAddSprite(GetBackgroundSprite(roll(j))))
        invariant State() == old(State()).(effects := effects)
      {
        effects := effects + [LayerAddSprite(GetBackgroundSprite(roll(i)))];
      }
      effects := effects + [LayerUpdateSprites];
    }

    method ResetGame(roll: nat -> int)
      modifies this
      ensures State() == AfterReset(old(State()), config, roll)
    {
      ResetBackgroundSprites(roll);
      effects := effects + [ScoreReset];
      gameStatus := Running;
      currentTickWait := config.maxTickWait;
      effects := effects + [SnakeReset];
      effects := effects + [StarsReset];
      ScheduleTick();
    }

    method HandleKeyEvent(key: Key, answers: Answers)
      modifies this
      ensures State() == AfterKey(old(State()), config, key, answers)
    {
      if key.MoveKey? {
        var newDirection := key.direction;
        match newDirection {
          case Down =>
            effects := effects + [SnakeOneEighty(Up)];
            if answers.oneEighty(Up) {
              return;
            }
          case Up =>
            effects := effects + [SnakeOneEighty(Down)];
            if answers.oneEighty(Down) {
              return;
            }
          case Left =>
            effects := effects + [SnakeOneEighty(Right)];
            if answers.oneEighty(Right) {
              return;
            }
          case Right =>
            effects := effects + [SnakeOneEighty(Left)];
            if answers.oneEighty(Left) {
              return;
            }
        }
        effects := effects + [SnakeSetDirection(newDirection)];
        Tick(answers.onFood, answers.moveOk);
        return;
      }
      match key {
        case SKey =>
          match gameStatus {
            case Running =>
            case Stopped =>
              ResetGame(answers.roll);
            case Paused =>
              gameStatus := Running;
              ScheduleTick();
          }
        case PKey =>
          gameStatus := Paused;
        case NKey =>
          ResetGame(answers.roll);
        case OtherKey =>
      }
    }
  }
}
