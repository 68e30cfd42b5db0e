/**
 * The ball: its speed, its 2D direction, its position and the four
 * independent zone-membership flags, with the fixed-priority hit-quality
 * resolver over those flags.
 */
module Ball {
  import opened Quality

  /** A 2D vector of reals (Unity's Vector2, without rounding). */
  datatype Vec2 = Vec2(x: real, y: real)
  {
    /** The vector with its x component negated. */
    function FlipX(): Vec2
    {
      Vec2(-x, y)
    }

    /** The vector with its y component negated. */
    function FlipY(): Vec2
    {
      Vec2(x, -y)
    }

    /** The vector with both components negated. */
    function Negated(): Vec2
    {
      Vec2(-x, -y)
    }

    function LengthSquared(): real
    {
      x * x + y * y
    }
  }

  /** Each reversal undoes itself and keeps the vector's length. */
  lemma ReversalsAreInvolutions(v: Vec2)
    ensures v.FlipX().FlipX() == v
    ensures v.FlipY().FlipY() == v
    ensures v.Negated().Negated() == v
    ensures v.Negated() == v.FlipX().FlipY()
    ensures v.FlipX().LengthSquared() == v.LengthSquared()
    ensures v.FlipY().LengthSquared() == v.LengthSquared()
    ensures v.Negated().LengthSquared() == v.LengthSquared()
  {
  }

  /**
   * `q` is the best quality among `zones`: Miss exactly when no zone
   * quality is present, otherwise a member that no other member beats.
   */
  ghost predicate IsHighest(q: HitQuality, zones: set<HitQuality>)
  {
    if forall z :: z in zones ==> z == Miss then q == Miss
    else q in zones && q != Miss && forall z :: z in zones ==> AtMost(z, q)
  }

  /**
   * The priority resolution Perfect > Good > Fine > Bad, Miss when no flag is
   * set, as a function of the set of flagged zones only.
   */
  function Resolve(zones: set<HitQuality>): (q: HitQuality)
    ensures IsHighest(q, zones)
  {
    if Perfect in zones then Perfect
    else if Good in zones then Good
    else if Fine in zones then Fine
    else if Bad in zones then Bad
    else Miss
  }

  /** Only one quality is the best of a set: the result depends on the set alone. */
  lemma HighestIsUnique(zones: set<HitQuality>, q1: HitQuality, q2: HitQuality)
    requires IsHighest(q1, zones) && IsHighest(q2, zones)
    ensures q1 == q2
  {
  }

  /** Flagging a zone never makes the resolved quality worse than that zone. */
  lemma EnterRaisesQuality(zones: set<HitQuality>, q: HitQuality)
    ensures AtMost(q, Resolve(zones + {q}))
    ensures AtMost(Resolve(zones), Resolve(zones + {q}))
  {
  }

  /** Everything the ball holds, as one value. */
  datatype BallView = BallView(
    position: Vec2,
    direction: Vec2,
    speed: real,
    zones: set<HitQuality>,
    baseSpeed: real)

  /** The ball controller of BallController.cs. */
  class BallController {
    /** Serialized settings; the shown code never changes them. */
    const baseSpeed: real
    const initialDirection: Vec2

    var position: Vec2
    var currentSpeed: real
    var direction: Vec2

    // Zone tracking: the ball can be in several zones at once.
    var inBadZone: bool
    var inFineZone: bool
    var inGoodZone: bool
    var inPerfectZone: bool

    /** The set of zones whose flag is up. */
    function Active(): (s: set<HitQuality>)
      reads this
      ensures s <= ZoneQualities
    {
      (if inBadZone then {Bad} else {}) +
      (if inFineZone then {Fine} else {}) +
      (if inGoodZone then {Good} else {}) +
      (if inPerfectZone then {Perfect} else {})
    }

    ghost function View(): BallView
      reads this
    {
      BallView(position, direction, currentSpeed, Active(), baseSpeed)
    }

    /**
     * The field initialisers followed by Start: only the Good flag is up,
     * the speed is 0 and the direction is the configured initial one
     * (Vector2.left by default).
     */
    constructor (baseSpeed: real, initialDirection: Vec2, position: Vec2)
      ensures this.baseSpeed == baseSpeed && this.initialDirection == initialDirection
      ensures View() == BallView(position, initialDirection, 0.0, {Good}, baseSpeed)
      ensures GetCurrentHitQuality() == Good
    {
      this.baseSpeed := baseSpeed;
      this.initialDirection := initialDirection;
      this.position := position;
      inBadZone := false;
      inFineZone := false;
      inGoodZone := true;
      inPerfectZone := false;
      currentSpeed := 0.0;
      direction := initialDirection;
    }

    /** Replaces the speed, without clamping. */
    method SetSpeed(speed: real)
      modifies this
      ensures View() == old(View()).(speed := speed)
    {
      currentSpeed := speed;
    }

    method ReverseDirection()
      modifies this
      ensures View() == old(View()).(direction := old(direction).Negated())
    {
      direction := direction.Negated();
    }

    method ReverseDirectionX()
      modifies this
      ensures View() == old(View()).(direction := old(direction).FlipX())
    {
      direction := Vec2(-direction.x, direction.y);
    }

    method ReverseDirectionY()
      modifies this
      ensures View() == old(View()).(direction := old(direction).FlipY())
    {
      direction := Vec2(direction.x, -direction.y);
    }

    method EnterBadZone()
      modifies this
      ensures View() == old(View()).(zones := old(Active()) + {Bad})
    {
      inBadZone := true;
    }

    method ExitBadZone()
      modifies this
      ensures View() == old(View()).(zones := old(Active()) - {Bad})
    {
      inBadZone := false;
    }

    method EnterFineZone()
      modifies this
      ensures View() == old(View()).(zones := old(Active()) + {Fine})
    {
      inFineZone := true;
    }

    method ExitFineZone()
      modifies this
      ensures View() == old(View()).(zones := old(Active()) - {Fine})
    {
      inFineZone := false;
    }

    method EnterGoodZone()
      modifies this
      ensures View() == old(View()).(zones := old(Active()) + {Good})
    {
      inGoodZone := true;
    }

    method ExitGoodZone()
      modifies this
      ensures View() == old(View()).(zones := old(Active()) - {Good})
    {
      inGoodZone := false;
    }

    method EnterPerfectZone()
      modifies this
      ensures View() == old(View()).(zones := old(Active()) + {Perfect})
    {
      inPerfectZone := true;
    }

    method ExitPerfectZone()
      modifies this
      ensures View() == old(View()).(zones := old(Active()) - {Perfect})
    {
      inPerfectZone := false;
    }

    /** Priority: Perfect > Good > Fine > Bad > Miss. */
    function GetCurrentHitQuality(): (q: HitQuality)
      reads this
      ensures q == Resolve(Active())
    {
      if inPerfectZone then Perfect
      else if inGoodZone then Good
      else if inFineZone then Fine
      else if inBadZone then Bad
      else Miss
    }

    /**
     * Puts the ball back at `position` heading along `newDirection` at the
     * base speed, with every zone flag down.
     */
    method ResetBall(position: Vec2, newDirection: Vec2)
      modifies this
      ensures View() == BallView(position, newDirection, baseSpeed, {}, baseSpeed)
      ensures GetCurrentHitQuality() == Miss
    {
      this.position := position;
      direction := newDirection;
      currentSpeed := baseSpeed;

      // Reset all zones
      inBadZone := false;
      inFineZone := false;
      inGoodZone := false;
      inPerfectZone := false;
    }
  }
}
