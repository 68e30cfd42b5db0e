/**
 * Timing zones: a zone of a given quality raises the ball's matching flag
 * when the ball enters it and lowers it when the ball leaves. A zone typed
 * Miss does nothing, and neither does a collider that is not a ball.
 */
module Zones {
  import opened Wrappers
  import opened Quality
  import opened Ball

  /** One trigger callback: the ball entering (or leaving) a zone of `zoneType`. */
  datatype ZoneEvent = ZoneEvent(zoneType: HitQuality, entering: bool)

  /** What one trigger callback does to the set of flagged zones. */
  function ZoneEffect(zones: set<HitQuality>, e: ZoneEvent): (r: set<HitQuality>)
    ensures forall q :: q != e.zoneType ==> (q in r <==> q in zones)
    ensures e.zoneType != Miss ==> (e.zoneType in r <==> e.entering)
    ensures e.zoneType == Miss ==> r == zones
  {
    match e.zoneType
    case Miss => zones
    case _ => if e.entering then zones + {e.zoneType} else zones - {e.zoneType}
  }

  /** The flagged zones after the callbacks `evs`, delivered in order. */
  function Replay(zones: set<HitQuality>, evs: seq<ZoneEvent>): set<HitQuality>
  {
    if evs == [] then zones
    else ZoneEffect(Replay(zones, evs[..|evs| - 1]), evs[|evs| - 1])
  }

  /** Whether the last callback that concerns zone type `q` was an entry. */
  function LastTouch(q: HitQuality, evs: seq<ZoneEvent>): Option<bool>
  {
    if evs == [] then None
    else if evs[|evs| - 1].zoneType == q then Some(evs[|evs| - 1].entering)
    else LastTouch(q, evs[..|evs| - 1])
  }

  /**
   * Zone flags are independent: a zone quality is flagged after a run of
   * callbacks exactly when the last callback for that quality was an entry,
   * or there was none and it was flagged before.
   */
  lemma {:induction false} ReplayLastTouchWins(zones: set<HitQuality>, evs: seq<ZoneEvent>, q: HitQuality)
    requires q != Miss
    ensures q in Replay(zones, evs) <==> LastTouch(q, evs) == Some(true) || (LastTouch(q, evs) == None && q in zones)
  {
    if evs != [] {
      ReplayLastTouchWins(zones, evs[..|evs| - 1], q);
    }
  }

  /** The zone qualities that the callbacks `evs` name. */
  function Named(evs: seq<ZoneEvent>): (s: set<HitQuality>)
    ensures forall i :: 0 <= i < |evs| ==> evs[i].zoneType in s
    ensures forall q :: q in s ==> exists i :: 0 <= i < |evs| && evs[i].zoneType == q
  {
    set i | 0 <= i < |evs| :: evs[i].zoneType
  }

  /** Entries alone add exactly the zone qualities they name, whatever their order. */
  lemma {:induction false} EntriesAddNamedZones(zones: set<HitQuality>, evs: seq<ZoneEvent>)
    requires forall i :: 0 <= i < |evs| ==> evs[i].entering
    ensures Replay(zones, evs) == zones + (Named(evs) - {Miss})
  {
    if evs != [] {
      var init := evs[..|evs| - 1];
      EntriesAddNamedZones(zones, init);
      assert Named(evs) == Named(init) + {evs[|evs| - 1].zoneType} by {
        forall q | q in Named(evs) ensures q in Named(init) + {evs[|evs| - 1].zoneType} {
          var i :| 0 <= i < |evs| && evs[i].zoneType == q;
          if i < |evs| - 1 {
            assert init[i].zoneType == q;
          }
        }
        forall q | q in Named(init) ensures q in Named(evs) {
          var i :| 0 <= i < |init| && init[i].zoneType == q;
          assert evs[i].zoneType == q;
        }
      }
    }
  }

  /**
   * The resolved hit quality does not depend on the order in which zones
   * were entered: two runs of entries naming the same zones resolve alike.
   */
  lemma EntryOrderIsIrrelevant(zones: set<HitQuality>, evs1: seq<ZoneEvent>, evs2: seq<ZoneEvent>)
    requires forall i :: 0 <= i < |evs1| ==> evs1[i].entering
    requires forall i :: 0 <= i < |evs2| ==> evs2[i].entering
    requires Named(evs1) == Named(evs2)
    ensures Replay(zones, evs1) == Replay(zones, evs2)
    ensures Resolve(Replay(zones, evs1)) == Resolve(Replay(zones, evs2))
  {
    EntriesAddNamedZones(zones, evs1);
    EntriesAddNamedZones(zones, evs2);
  }

  /** Entering then leaving a zone lowers its flag and leaves the others as they were. */
  lemma EnterThenExit(zones: set<HitQuality>, q: HitQuality)
    requires q != Miss
    ensures Replay(zones, [ZoneEvent(q, true), ZoneEvent(q, false)]) == zones - {q}
  {
    var evs := [ZoneEvent(q, true), ZoneEvent(q, false)];
    assert evs[..1] == [ZoneEvent(q, true)] && evs[..1][..0] == [];
    assert Replay(zones, evs[..1]) == zones + {q};
  }

  /** Delivering the same callback twice is the same as delivering it once. */
  lemma ZoneEffectIsIdempotent(zones: set<HitQuality>, e: ZoneEvent)
    ensures ZoneEffect(ZoneEffect(zones, e), e) == ZoneEffect(zones, e)
  {
  }

  /** A timing zone of TimingZone.cs, without its visuals. */
  class TimingZone {
    const zoneType: HitQuality

    constructor (zoneType: HitQuality)
      ensures this.zoneType == zoneType
    {
      this.zoneType := zoneType;
    }

    /**
     * A collider entered the zone. `other` is its ball controller, null
     * when the collider has none.
     */
    method OnTriggerEnter2D(other: BallController?)
      modifies other
      ensures other != null ==>
        other.View() == old(other.View()).(zones := ZoneEffect(old(other.Active()), ZoneEvent(zoneType, true)))
    {
      if other != null {
        match zoneType {
          case Bad => other.EnterBadZone();
          case Fine => other.EnterFineZone();
          case Good => other.EnterGoodZone();
          case Perfect => other.EnterPerfectZone();
          case Miss =>
        }
      }
    }

    /** A collider left the zone; `other` as for OnTriggerEnter2D. */
    method OnTriggerExit2D(other: BallController?)
      modifies other
      ensures other != null ==>
        other.View() == old(other.View()).(zones := ZoneEffect(old(other.Active()), ZoneEvent(zoneType, false)))
    {
      if other != null {
        match zoneType {
          case Bad => other.ExitBadZone();
          case Fine => other.ExitFineZone();
          case Good => other.ExitGoodZone();
          case Perfect => other.ExitPerfectZone();
          case Miss =>
        }
      }
    }
  }
}
