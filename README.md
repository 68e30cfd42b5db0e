# Rally engine of ping-ping-pong, modelled in Dafny

This project models the rally engine of the Unity table-tennis game: the
ball's speed, direction and four zone-membership flags (`BallController`),
the timing zones that raise and lower those flags (`TimingZone`), the three
card slots (`CardDisplay`), and the game manager's state machine
(`GameManager`). The state machine gates card selections on the game
state. It loses on a Miss, ignores a card index outside 0..2, scales the
ball speed by the hit quality's timing modifier and scores speed points for
cards over 50. It flips the ball's x direction and redeals the cards. When
the ball reaches the opponent, it either wins on speed points or returns
the ball.

Layout:

- `quality.dfy` (module `Quality`): `HitQuality` and its declaration order.
- `ball.dfy` (module `Ball`): `Vec2`, the class `BallController` with the
  source's fields and methods, and `Resolve`, the priority resolution over
  the set of flagged zones.
- `zones.dfy` (module `Zones`): the class `TimingZone` and the effect of a
  trigger callback on the flags (`ZoneEffect`). It also covers runs of
  callbacks (`Replay`).
- `cards.dfy` (module `Cards`): the class `CardDisplay` over an `array<int>`
  of length 3, and the lookup `CardAt` on its values.
- `rally.dfy` (module `Rally`): `GameState`, the serialized settings
  (`Tuning`) and the class `GameManager`. The pure functions `SelectCard`,
  `OpponentReturn` and `ResetRally` give each operation's effect on a
  `GameView`, and every method is proved to have exactly that effect.
- `rally_trace.dfy` (module `RallyTrace`): properties of single operations
  and of whole traces of callbacks (`Run`).
- `wrappers.dfy` (module `Wrappers`): `Option`, used where the game manager
  may lack a reference.

Conventions:

- Speeds, modifiers and points are `real`.
- A missing scene reference (`ballController` or `cardDisplay` left null)
  is a null constant of `GameManager`, and `None` in its view.
- `Random.Range(1, 101)` is a nondeterministic choice of a value in
  [1, 100]. A method that redeals the cards promises its result for some
  deal in that range.

The model follows the code as written:

- The game is won on `speedPoints` reaching `winSpeedPointsThreshold`, not
  on the ball's raw speed.
- There is no turn gate on card selections.
- A hit does not clear the zone flags.
- Speed 0 is not replaced by the base speed before a hit. A ball that starts
  at speed 0 therefore stays at speed 0 until a reset
  (`RallyTrace.StillBallStaysStill`).
- Leaving the Bad zone raises no "missed" event.
- `ResetBall` lowers all four flags and does not seed the Good zone, so a
  card selected right after `ResetGame` loses (`RallyTrace.ResetThenSelectLoses`).
- Only the field initialiser raises `inGoodZone`, so a fresh ball resolves
  to Good.

## Model

| member | source | states |
|---|---|---|
| Quality.AtMostIsTotalOrder | Assets/Scripts/Zones/TimingZone.cs:3-10 | the order of `HitQuality` is reflexive, antisymmetric, transitive and total |
| Quality.DeclarationOrder | Assets/Scripts/Zones/TimingZone.cs:3-10 | Miss < Bad < Fine < Good < Perfect, with Miss least and Perfect greatest |
| Ball.ReversalsAreInvolutions | Assets/Scripts/Ball/BallController.cs:36-49 | each reversal applied twice gives back the direction; reversing both axes is reversing x then y; no reversal changes the vector's length |
| Ball.Resolve | Assets/Scripts/Ball/BallController.cs:61-69 | the result is Miss exactly when no zone quality is flagged; otherwise it is a flagged quality that no flagged quality beats |
| Ball.HighestIsUnique | Assets/Scripts/Ball/BallController.cs:61-69 | at most one quality is the best of a set, so the resolved quality depends on the flag set only |
| Ball.EnterRaisesQuality | Assets/Scripts/Ball/BallController.cs:52-69 | after a zone is flagged the resolved quality is at least that zone and never worse than before |
| Ball.BallController.constructor | Assets/Scripts/Ball/BallController.cs:5-24 | initially only the Good flag is up, the speed is 0 and the direction is the initial direction, so the first query yields Good |
| Ball.BallController.SetSpeed | Assets/Scripts/Ball/BallController.cs:31-34 | the speed becomes exactly the argument (no clamping) and nothing else changes |
| Ball.BallController.ReverseDirection | Assets/Scripts/Ball/BallController.cs:36-39 | both components of the direction are negated; nothing else changes |
| Ball.BallController.ReverseDirectionX | Assets/Scripts/Ball/BallController.cs:41-44 | x is negated, y kept; nothing else changes |
| Ball.BallController.ReverseDirectionY | Assets/Scripts/Ball/BallController.cs:46-49 | y is negated, x kept; nothing else changes |
| Ball.BallController.EnterBadZone | Assets/Scripts/Ball/BallController.cs:52 | the flag set gains Bad; nothing else changes |
| Ball.BallController.ExitBadZone | Assets/Scripts/Ball/BallController.cs:53 | the flag set loses Bad; nothing else changes |
| Ball.BallController.EnterFineZone | Assets/Scripts/Ball/BallController.cs:54 | the flag set gains Fine; nothing else changes |
| Ball.BallController.ExitFineZone | Assets/Scripts/Ball/BallController.cs:55 | the flag set loses Fine; nothing else changes |
| Ball.BallController.EnterGoodZone | Assets/Scripts/Ball/BallController.cs:56 | the flag set gains Good; nothing else changes |
| Ball.BallController.ExitGoodZone | Assets/Scripts/Ball/BallController.cs:57 | the flag set loses Good; nothing else changes |
| Ball.BallController.EnterPerfectZone | Assets/Scripts/Ball/BallController.cs:58 | the flag set gains Perfect; nothing else changes |
| Ball.BallController.ExitPerfectZone | Assets/Scripts/Ball/BallController.cs:59 | the flag set loses Perfect; nothing else changes |
| Ball.BallController.GetCurrentHitQuality | Assets/Scripts/Ball/BallController.cs:61-69 | the chain over the four flags agrees with the priority resolution of the flagged set |
| Ball.BallController.ResetBall | Assets/Scripts/Ball/BallController.cs:71-82 | position and direction are the arguments, the speed is the base speed, every flag is down, so the quality is Miss |
| Zones.ZoneEffect | Assets/Scripts/Zones/TimingZone.cs:95-139 | a callback for zone type q changes only q's flag (raised on entry, lowered on exit), and a Miss-typed zone changes nothing |
| Zones.ZoneEffectIsIdempotent | Assets/Scripts/Ball/BallController.cs:52-59 | delivering the same enter or exit twice is the same as delivering it once |
| Zones.ReplayLastTouchWins | Assets/Scripts/Zones/TimingZone.cs:95-139 | after any run of callbacks a zone is flagged exactly when the last callback for it was an entry, or none came and it was flagged before |
| Zones.EntriesAddNamedZones | Assets/Scripts/Zones/TimingZone.cs:100-114 | a run of entries flags exactly the zone qualities it names (Miss excluded) on top of those already flagged |
| Zones.EntryOrderIsIrrelevant | Assets/Scripts/Ball/BallController.cs:61-69 | two runs of entries naming the same zones, in any order, give the same flags and the same hit quality |
| Zones.EnterThenExit | Assets/Scripts/Zones/TimingZone.cs:95-139 | entering then leaving a zone lowers its flag and leaves the other flags as they were |
| Zones.TimingZone.OnTriggerEnter2D | Assets/Scripts/Zones/TimingZone.cs:95-116 | for a ball collider the ball's flags change by the entry effect of the zone's type and nothing else of the ball changes; a collider without a ball changes nothing |
| Zones.TimingZone.OnTriggerExit2D | Assets/Scripts/Zones/TimingZone.cs:118-139 | as for entry, with the exit effect |
| Cards.CardAt | Assets/Scripts/Cards/CardDisplay.cs:80-87 | slot i's value for 0 <= i < 3 and -1 otherwise; for a blank or dealt hand the answer is negative exactly when the index is out of range |
| Cards.CardDisplay.constructor | Assets/Scripts/Cards/CardDisplay.cs:8 | a fresh display has exactly three slots, all 0 |
| Cards.CardDisplay.GenerateNewCards | Assets/Scripts/Cards/CardDisplay.cs:68-78 | afterwards each of the three values lies in [1, 100] |
| Cards.CardDisplay.GetCardValue | Assets/Scripts/Cards/CardDisplay.cs:80-87 | the lookup agrees with `CardAt` on the current values, is negative exactly for an index outside 0..2, and, being a function, changes nothing |
| Rally.GetTimingModifier | Assets/Scripts/Core/GameManager.cs:153-163 | a quality without a configured modifier (Miss) scales by 1.0 |
| Rally.DefaultModifiers | Assets/Scripts/Core/GameManager.cs:24-27 | the default modifiers are Bad 0.5, Fine 0.8, Good 1.0, Perfect 1.2; they are positive and never smaller for better timing |
| Rally.ScaledSpeed | Assets/Scripts/Core/GameManager.cs:131 | the post-hit speed is 0 for a stationary ball and unchanged for a factor of 1.0 |
| Rally.ValidHitEffect | Assets/Scripts/Core/GameManager.cs:126-150 | on a hit that is not a Miss with a valid card: speed times the quality's modifier, points up by the increment exactly when the card is over 50, x direction flipped, cards redealt, state still Playing |
| Rally.GameManager.constructor | Assets/Scripts/Core/GameManager.cs:33-34 | the game starts Playing with no speed points |
| Rally.GameManager.Win | Assets/Scripts/Core/GameManager.cs:190-195 | the state becomes Won, the points stay |
| Rally.GameManager.Lose | Assets/Scripts/Core/GameManager.cs:197-202 | the state becomes Lost, the points stay |
| Rally.GameManager.OnCardSelected | Assets/Scripts/Core/GameManager.cs:100-151 | the new game, ball and cards are those `SelectCard` gives for some deal in [1, 100] |
| Rally.GameManager.OnBallHitOpponentCollider | Assets/Scripts/Core/GameManager.cs:165-188 | the new game and ball are those `OpponentReturn` gives |
| Rally.GameManager.ResetGame | Assets/Scripts/Core/GameManager.cs:204-218 | the new game, ball and cards are those `ResetRally` gives for some deal in [1, 100] |
| RallyTrace.SelectionIgnoredUnlessReady | Assets/Scripts/Core/GameManager.cs:100-106 | outside Playing, or with a missing ball or card reference, a selection changes nothing |
| RallyTrace.MissLosesWhateverTheIndex | Assets/Scripts/Core/GameManager.cs:108-116 | with no zone flagged a selection moves to Lost and changes nothing else, even for an invalid index |
| RallyTrace.BadIndexChangesNothing | Assets/Scripts/Core/GameManager.cs:118-124 | a non-Miss selection of an index outside 0..2 changes nothing |
| RallyTrace.SelectionOutcomes | Assets/Scripts/Core/GameManager.cs:100-151 | a selection changes the state only from Playing to Lost, and only when the resolved quality is Miss |
| RallyTrace.OpponentReturnOutcome | Assets/Scripts/Core/GameManager.cs:165-188 | from Playing the game is won exactly when the points reach the threshold, with the ball untouched; otherwise only the ball's x direction flips |
| RallyTrace.TwoReturnsRestoreDirection | Assets/Scripts/Core/GameManager.cs:175-181 | two returns below the threshold give back the original game and ball |
| RallyTrace.ResetThenSelectLoses | Assets/Scripts/Core/GameManager.cs:204-218 | after a reset: Playing, 0 points, base speed, no zone flagged, so the next selection loses |
| RallyTrace.SettledGameStaysSettled | Assets/Scripts/Core/GameManager.cs:102-103 | Won, Lost and Paused absorb every callback except a reset: state, points and cards stay |
| RallyTrace.PointsNeverDecrease | Assets/Scripts/Core/GameManager.cs:134-138 | without a reset the speed points never decrease, for a non-negative increment |
| RallyTrace.WinNeedsPoints | Assets/Scripts/Core/GameManager.cs:170-174 | whenever a trace without a reset ends in Won, the points are at or above the threshold |
| RallyTrace.StillBallStaysStill | Assets/Scripts/Core/GameManager.cs:130-132 | a ball at speed 0 stays at speed 0 until a reset |
| RallyTrace.CardsStayWellDealt | Assets/Scripts/Cards/CardDisplay.cs:68-78 | across any trace the cards stay the initial zeros or a deal in [1, 100] |
| RallyTrace.ReferencesArePermanent | Assets/Scripts/Core/GameManager.cs:19-20 | no callback adds or drops the ball or card reference |

## Left out

- Sound: every `SoundFXManager` call is I/O and is not modelled.
- `Debug.Log`: not modelled.
- The `Card` UI: not modelled.
- `TimingZone.SetupVisual`, `GetZoneColor` and `OnValidate`: rendering only; not modelled.
- `CardDisplay.CreateCards` and `CardDisplay.Start`: prefab instantiation is not modelled. A fresh `CardDisplay` holds its initial zeros until `GenerateNewCards` is called.
- `GameManager.Awake`, `OnDestroy` and `Start`: input binding and scene lookup. Card indices are method arguments, and references are fixed at construction. The initial deal in `Start` is not modelled.
- `BallController.Update`: frame-timed position integration is not modelled. Position changes only through `ResetBall`.
- `BallController.OnCollisionEnter2D` and `BallController.OnTriggerEnter2D`: these Unity physics callbacks appear only in the trace model, as `TableBounce` (y reversal) and `OpponentColliderHit`.
- The `Paused` state: no code enters or leaves it. The model only treats it like Won and Lost.
- Ball.BallController.ResetBall: stores `newDirection` as given, without `.normalized`, because vector normalisation is floating-point square-root arithmetic. The default reset direction (1, 0) is already a unit vector.
- Ball.BallController.constructor: stores the initial direction as given, without `.normalized`, for the same reason. The default (-1, 0) is a unit vector.
- Single-precision floating point: speeds, modifiers and points are exact reals, so rounding is not modelled.
