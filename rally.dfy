/**
 * The rally state machine of GameManager.cs: the game state, the speed-point
 * score, and what a card selection, the ball reaching the opponent's
 * collider and a reset do to them, to the ball and to the cards.
 *
 * The pure functions SelectCard, OpponentReturn and ResetRally give the effect
 * of each operation on a GameView; the methods of GameManager are proved to
 * have exactly that effect.
 */
module Rally {
  import opened Wrappers
  import opened Quality
  import opened Ball
  import opened Cards

  datatype GameState = Playing | Won | Lost | Paused

  /** The serialized settings of the game manager. */
  datatype Tuning = Tuning(
    winSpeedPointsThreshold: real,
    speedPointsIncrementPerCardValue: real,
    badModifier: real,
    fineModifier: real,
    goodModifier: real,
    perfectModifier: real,
    ballResetPosition: Vec2,
    ballResetDirection: Vec2)

  /** The values the settings start with (Vector2.zero and Vector2.right for the reset). */
  const DefaultTuning: Tuning :=
    Tuning(100.0, 1.0, 0.5, 0.8, 1.0, 1.2, Vec2(0.0, 0.0), Vec2(1.0, 0.0))

  /** The factor a hit of quality `q` applies to the ball speed; 1.0 for anything unlisted. */
  function GetTimingModifier(t: Tuning, q: HitQuality): (m: real)
    ensures q == Miss ==> m == 1.0
  {
    match q
    case Bad => t.badModifier
    case Fine => t.fineModifier
    case Good => t.goodModifier
    case Perfect => t.perfectModifier
    case _ => 1.0
  }

  /**
   * With the default settings a hit scales the speed by 0.5, 0.8, 1.0 or 1.2,
   * and better timing never gives a smaller factor.
   */
  lemma DefaultModifiers()
    ensures GetTimingModifier(DefaultTuning, Bad) == 0.5
    ensures GetTimingModifier(DefaultTuning, Fine) == 0.8
    ensures GetTimingModifier(DefaultTuning, Good) == 1.0
    ensures GetTimingModifier(DefaultTuning, Perfect) == 1.2
    ensures forall a, b :: a != Miss && AtMost(a, b) ==>
      0.0 < GetTimingModifier(DefaultTuning, a) <= GetTimingModifier(DefaultTuning, b)
  {
  }

  /**
   * The speed after a hit with timing factor `factor`. The product is kept
   * behind a name so that the solver treats it as one term.
   */
  function ScaledSpeed(speed: real, factor: real): (r: real)
    ensures speed == 0.0 ==> r == 0.0
    ensures factor == 1.0 ==> r == speed
  {
    speed * factor
  }

  /**
   * Everything the rally engine can observe: the game state, the score, and
   * the ball and the cards when the game manager holds a reference to them.
   */
  datatype GameView = GameView(
    state: GameState,
    speedPoints: real,
    ball: Option<BallView>,
    cards: Option<Hand>)

  /**
   * Selecting card `index`. `draw` is what the random generator deals when
   * the cards are regenerated.
   */
  function SelectCard(t: Tuning, g: GameView, index: int, draw: Hand): GameView
  {
    if g.state != Playing || g.ball.None? || g.cards.None? then g
    else
      var quality := Resolve(g.ball.value.zones);
      if quality == Miss then g.(state := Lost)
      else
        var cardValue := CardAt(g.cards.value, index);
        if cardValue < 0 then g
        else
          var b := g.ball.value;
          g.(speedPoints := if cardValue > 50 then g.speedPoints + t.speedPointsIncrementPerCardValue else g.speedPoints,
             ball := Some(b.(speed := ScaledSpeed(b.speed, GetTimingModifier(t, quality)), direction := b.direction.FlipX())),
             cards := Some(draw))
  }

  /**
   * A hit that is not a Miss with an existing card: the speed is scaled by
   * the quality's modifier, the points rise by the increment exactly when
   * the card is over 50, the x direction flips and the cards are redealt;
   * the state, the zones, the position and the y direction stay.
   */
  lemma ValidHitEffect(t: Tuning, g: GameView, index: int, draw: Hand)
    requires g.state == Playing && g.ball.Some? && g.cards.Some?
    requires Resolve(g.ball.value.zones) != Miss
    requires CardAt(g.cards.value, index) >= 0
    ensures SelectCard(t, g, index, draw).state == Playing
    ensures SelectCard(t, g, index, draw).speedPoints ==
      if g.cards.value[index] > 50 then g.speedPoints + t.speedPointsIncrementPerCardValue else g.speedPoints
    ensures SelectCard(t, g, index, draw).ball == Some(g.ball.value.(
      speed := ScaledSpeed(g.ball.value.speed, GetTimingModifier(t, Resolve(g.ball.value.zones))),
      direction := g.ball.value.direction.FlipX()))
    ensures SelectCard(t, g, index, draw).cards == Some(draw)
  {
  }

  /** The ball reaching the opponent's collider. */
  function OpponentReturn(t: Tuning, g: GameView): GameView
  {
    if g.state != Playing then g
    else if g.speedPoints >= t.winSpeedPointsThreshold then g.(state := Won)
    else if g.ball.None? then g
    else g.(ball := Some(g.ball.value.(direction := g.ball.value.direction.FlipX())))
  }

  /** ResetGame, with `draw` the newly dealt cards. */
  function ResetRally(t: Tuning, g: GameView, draw: Hand): GameView
  {
    GameView(
      Playing,
      0.0,
      if g.ball.None? then None
      else Some(BallView(t.ballResetPosition, t.ballResetDirection, g.ball.value.baseSpeed, {}, g.ball.value.baseSpeed)),
      if g.cards.None? then None else Some(draw))
  }

  /** The game manager of GameManager.cs, without input binding, sound and logging. */
  class GameManager {
    const tuning: Tuning
    /** Scene references; null when missing. */
    const ballController: BallController?
    const cardDisplay: CardDisplay?

    var currentState: GameState
    var speedPoints: real

    /** The objects the game manager's operations may change. */
    ghost function Repr(): set<object>
    {
      {this} +
      (if ballController != null then {ballController} else {}) +
      (if cardDisplay != null then {cardDisplay.currentCardValues} else {})
    }

    ghost predicate Valid()
      reads Repr()
    {
      cardDisplay != null ==> cardDisplay.Valid()
    }

    ghost function View(): GameView
      reads Repr()
      requires Valid()
    {
      GameView(
        currentState,
        speedPoints,
        if ballController == null then None else Some(ballController.View()),
        if cardDisplay == null then None else Some(cardDisplay.Values()))
    }

    constructor (tuning: Tuning, ballController: BallController?, cardDisplay: CardDisplay?)
      requires cardDisplay != null ==> cardDisplay.Valid()
      ensures Valid()
      ensures this.tuning == tuning && this.ballController == ballController && this.cardDisplay == cardDisplay
      ensures currentState == Playing && speedPoints == 0.0
    {
      this.tuning := tuning;
      this.ballController := ballController;
      this.cardDisplay := cardDisplay;
      currentState := Playing;
      speedPoints := 0.0;
    }

    method Win()
      modifies this
      ensures currentState == Won && speedPoints == old(speedPoints)
    {
      currentState := Won;
    }

    method Lose()
      modifies this
      ensures currentState == Lost && speedPoints == old(speedPoints)
    {
      currentState := Lost;
    }

    /** The player picked card `cardIndex`. */
    method OnCardSelected(cardIndex: int)
      requires Valid()
      modifies Repr()
      ensures Valid()
      ensures exists draw: Hand :: Drawn(draw) && View() == SelectCard(tuning, old(View()), cardIndex, draw)
    {
      ghost var before := View();
      ghost var unused: Hand := [1, 1, 1];
      if currentState != Playing {
        assert View() == SelectCard(tuning, before, cardIndex, unused);
        return;
      }
      if ballController == null || cardDisplay == null {
        assert View() == SelectCard(tuning, before, cardIndex, unused);
        return;
      }

      var hitQuality := ballController.GetCurrentHitQuality();
      if hitQuality == Miss {
        Lose();
        assert View() == SelectCard(tuning, before, cardIndex, unused);
        return;
      }

      var cardValue := cardDisplay.GetCardValue(cardIndex);
      if cardValue < 0 {
        // Invalid card selection
        assert View() == SelectCard(tuning, before, cardIndex, unused);
        return;
      }

      var timingModifier := GetTimingModifier(tuning, hitQuality);
      var speedMultiplier := timingModifier;
      var newSpeed := ScaledSpeed(ballController.currentSpeed, speedMultiplier);
      ballController.SetSpeed(newSpeed);

      if cardValue > 50 {
        speedPoints := speedPoints + tuning.speedPointsIncrementPerCardValue;
      }

      ballController.ReverseDirectionX();

      cardDisplay.GenerateNewCards();
      assert View() == SelectCard(tuning, before, cardIndex, cardDisplay.Values());
    }

    /** The ball reached the opponent's collider. */
    method OnBallHitOpponentCollider()
      requires Valid()
      modifies Repr()
      ensures Valid()
      ensures View() == OpponentReturn(tuning, old(View()))
    {
      if currentState != Playing {
        return;
      }
      if speedPoints >= tuning.winSpeedPointsThreshold {
        Win();
      } else {
        // The opponent hits it back.
        if ballController != null {
          ballController.ReverseDirectionX();
        }
      }
    }

    /** Starts a new rally: Playing, no points, the ball at its reset pose, new cards. */
    method ResetGame()
      requires Valid()
      modifies Repr()
      ensures Valid()
      ensures exists draw: Hand :: Drawn(draw) && View() == ResetRally(tuning, old(View()), draw)
    {
      ghost var before := View();
      currentState := Playing;
      speedPoints := 0.0;

      if ballController != null {
        ballController.ResetBall(tuning.ballResetPosition, tuning.ballResetDirection);
      }

      if cardDisplay != null {
        cardDisplay.GenerateNewCards();
        assert View() == ResetRally(tuning, before, cardDisplay.Values());
      } else {
        assert View() == ResetRally(tuning, before, [1, 1, 1]);
      }
    }
  }
}
