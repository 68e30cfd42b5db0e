/**
 * Properties of the rally engine over single operations and over whole
 * traces of the callbacks the engine receives: card selections, the ball
 * reaching the opponent's collider, resets, zone triggers and table
 * bounces, each applied as the corresponding method would apply it.
 */
module RallyTrace {
  import opened Wrappers
  import opened Quality
  import opened Ball
  import opened Zones
  import opened Cards
  import opened Rally

  /** One callback delivered to the engine; `draw` is what a redeal deals. */
  datatype Event =
    | CardSelected(index: int, draw: Hand)
    | OpponentColliderHit
    | GameReset(draw: Hand)
    | ZoneTrigger(zone: ZoneEvent)
    | TableBounce

  /** A zone trigger or a table bounce acts on the ball alone. */
  function OnBall(g: GameView, e: Event): GameView
    requires e.ZoneTrigger? || e.TableBounce?
  {
    if g.ball.None? then g
    else if e.ZoneTrigger? then g.(ball := Some(g.ball.value.(zones := ZoneEffect(g.ball.value.zones, e.zone))))
    else g.(ball := Some(g.ball.value.(direction := g.ball.value.direction.FlipY())))
  }

  function Step(t: Tuning, g: GameView, e: Event): GameView
  {
    match e
    case CardSelected(index, draw) => SelectCard(t, g, index, draw)
    case OpponentColliderHit => OpponentReturn(t, g)
    case GameReset(draw) => ResetRally(t, g, draw)
    case _ => OnBall(g, e)
  }

  /** The view after the callbacks `evs`, delivered in order. */
  function Run(t: Tuning, g: GameView, evs: seq<Event>): GameView
    decreases |evs|
  {
    if evs == [] then g else Run(t, Step(t, g, evs[0]), evs[1..])
  }

  predicate NoReset(evs: seq<Event>)
  {
    forall i :: 0 <= i < |evs| ==> !evs[i].GameReset?
  }

  /** Every redeal in `evs` deals values in [1, 100]. */
  predicate DrawsInRange(evs: seq<Event>)
  {
    forall i :: 0 <= i < |evs| ==> (evs[i].CardSelected? || evs[i].GameReset?) ==> Drawn(evs[i].draw)
  }

  /** The cards, when present, are the initial zeros or a valid deal. */
  predicate CardsWellDealt(g: GameView)
  {
    g.cards.Some? ==> Blank(g.cards.value) || Drawn(g.cards.value)
  }

  // ---------------------------------------------------------------------
  // Card selection

  /** Outside Playing, or without a ball or card reference, a selection changes nothing. */
  lemma SelectionIgnoredUnlessReady(t: Tuning, g: GameView, index: int, draw: Hand)
    requires g.state != Playing || g.ball.None? || g.cards.None?
    ensures SelectCard(t, g, index, draw) == g
  {
  }

  /**
   * With no zone flagged the selection loses, whatever the index (the Miss
   * check comes before the index check), and nothing but the state changes.
   */
  lemma MissLosesWhateverTheIndex(t: Tuning, g: GameView, index: int, draw: Hand)
    requires g.state == Playing && g.ball.Some? && g.cards.Some?
    requires forall q :: q in g.ball.value.zones ==> q == Miss
    ensures SelectCard(t, g, index, draw) == g.(state := Lost)
  {
  }

  /** A hit with an index outside 0..2 changes nothing at all. */
  lemma BadIndexChangesNothing(t: Tuning, g: GameView, index: int, draw: Hand)
    requires g.state == Playing && g.ball.Some? && g.cards.Some?
    requires Resolve(g.ball.value.zones) != Miss
    requires index < 0 || index >= SlotCount
    ensures SelectCard(t, g, index, draw) == g
  {
  }

  /** A selection moves the state only from Playing to Lost, never to Won or Paused. */
  lemma SelectionOutcomes(t: Tuning, g: GameView, index: int, draw: Hand)
    ensures var r := SelectCard(t, g, index, draw);
      r.state == g.state || (g.state == Playing && r.state == Lost)
    ensures SelectCard(t, g, index, draw).state == Lost && g.state == Playing ==>
      g.ball.Some? && Resolve(g.ball.value.zones) == Miss
  {
  }

  // ---------------------------------------------------------------------
  // The opponent's return

  /**
   * At the opponent's collider a Playing game is won exactly when the points
   * reached the threshold, and then the ball is untouched; otherwise only the
   * ball's x direction flips.
   */
  lemma OpponentReturnOutcome(t: Tuning, g: GameView)
    requires g.state == Playing
    ensures OpponentReturn(t, g).state == Won <==> g.speedPoints >= t.winSpeedPointsThreshold
    ensures g.speedPoints >= t.winSpeedPointsThreshold ==> OpponentReturn(t, g) == g.(state := Won)
    ensures g.speedPoints < t.winSpeedPointsThreshold ==>
      OpponentReturn(t, g) == g.(ball := if g.ball.None? then None else Some(g.ball.value.(direction := g.ball.value.direction.FlipX())))
  {
  }

  /** Two returns below the threshold bring the ball's direction back. */
  lemma TwoReturnsRestoreDirection(t: Tuning, g: GameView)
    requires g.state == Playing && g.speedPoints < t.winSpeedPointsThreshold
    ensures OpponentReturn(t, OpponentReturn(t, g)) == g
  {
  }

  // ---------------------------------------------------------------------
  // Reset

  /**
   * After a reset the game is Playing with no points; the ball is at its
   * reset pose at base speed with no zone flagged, so the next selection,
   * whatever the card, loses.
   */
  lemma ResetThenSelectLoses(t: Tuning, g: GameView, deal: Hand, index: int, draw: Hand)
    requires g.ball.Some? && g.cards.Some?
    ensures var r := ResetRally(t, g, deal);
      && r.state == Playing && r.speedPoints == 0.0
      && r.ball.Some? && Resolve(r.ball.value.zones) == Miss && r.ball.value.speed == g.ball.value.baseSpeed
      && SelectCard(t, r, index, draw).state == Lost
  {
  }

  // ---------------------------------------------------------------------
  // Whole traces

  /**
   * Won, Lost and Paused absorb every callback but a reset: the state, the
   * points and the cards stay as they are.
   */
  lemma {:induction false} SettledGameStaysSettled(t: Tuning, g: GameView, evs: seq<Event>)
    requires g.state != Playing
    requires NoReset(evs)
    ensures Run(t, g, evs).state == g.state
    ensures Run(t, g, evs).speedPoints == g.speedPoints
    ensures Run(t, g, evs).cards == g.cards
    decreases |evs|
  {
    if evs != [] {
      assert !evs[0].GameReset?;
      SettledGameStaysSettled(t, Step(t, g, evs[0]), evs[1..]);
    }
  }

  /** Without a reset the speed points never go down (for a non-negative increment). */
  lemma {:induction false} PointsNeverDecrease(t: Tuning, g: GameView, evs: seq<Event>)
    requires t.speedPointsIncrementPerCardValue >= 0.0
    requires NoReset(evs)
    ensures Run(t, g, evs).speedPoints >= g.speedPoints
    decreases |evs|
  {
    if evs != [] {
      assert !evs[0].GameReset?;
      PointsNeverDecrease(t, Step(t, g, evs[0]), evs[1..]);
    }
  }

  /** A game is only ever won with the points at or above the threshold. */
  lemma {:induction false} WinNeedsPoints(t: Tuning, g: GameView, evs: seq<Event>)
    requires g.state != Won
    requires NoReset(evs)
    requires Run(t, g, evs).state == Won
    ensures Run(t, g, evs).speedPoints >= t.winSpeedPointsThreshold
    decreases |evs|
  {
    assert evs != [];
    assert !evs[0].GameReset?;
    var next := Step(t, g, evs[0]);
    if next.state == Won {
      SettledGameStaysSettled(t, next, evs[1..]);
    } else {
      WinNeedsPoints(t, next, evs[1..]);
    }
  }

  /**
   * A ball at speed 0 stays at speed 0 until a reset: a hit only multiplies
   * the speed, so the stationary ball a fresh controller starts with is
   * never set moving by the rally itself.
   */
  lemma {:induction false} StillBallStaysStill(t: Tuning, g: GameView, evs: seq<Event>)
    requires g.ball.Some? && g.ball.value.speed == 0.0
    requires NoReset(evs)
    ensures Run(t, g, evs).ball.Some? && Run(t, g, evs).ball.value.speed == 0.0
    decreases |evs|
  {
    if evs != [] {
      assert !evs[0].GameReset?;
      StillBallStaysStill(t, Step(t, g, evs[0]), evs[1..]);
    }
  }

  /** Card values stay the initial zeros or a deal in [1, 100], across any trace. */
  lemma {:induction false} CardsStayWellDealt(t: Tuning, g: GameView, evs: seq<Event>)
    requires CardsWellDealt(g)
    requires DrawsInRange(evs)
    ensures CardsWellDealt(Run(t, g, evs))
    decreases |evs|
  {
    if evs != [] {
      assert (evs[0].CardSelected? || evs[0].GameReset?) ==> Drawn(evs[0].draw);
      CardsStayWellDealt(t, Step(t, g, evs[0]), evs[1..]);
    }
  }

  /** The engine never drops or gains a collaborator reference. */
  lemma {:induction false} ReferencesArePermanent(t: Tuning, g: GameView, evs: seq<Event>)
    ensures Run(t, g, evs).ball.Some? == g.ball.Some?
    ensures Run(t, g, evs).cards.Some? == g.cards.Some?
    decreases |evs|
  {
    if evs != [] {
      ReferencesArePermanent(t, Step(t, g, evs[0]), evs[1..]);
    }
  }
}
