/**
 * The three card slots: integer values redrawn uniformly in [1, 100], and
 * a bounds-checked lookup that answers -1 for a slot that does not exist.
 */
module Cards {

  /** The number of card slots. */
  const SlotCount: nat := 3

  /** The values of the three slots, in order. */
  type Hand = s: seq<int> | |s| == SlotCount witness [0, 0, 0]

  /** Every slot holds a value a draw can produce. */
  predicate Drawn(h: Hand)
  {
    forall i :: 0 <= i < SlotCount ==> 1 <= h[i] <= 100
  }

  /** The hand before the first draw: the array's default zeros. */
  predicate Blank(h: Hand)
  {
    forall i :: 0 <= i < SlotCount ==> h[i] == 0
  }

  /**
   * The value in slot `index`, or -1 when there is no such slot. The answer
   * is negative exactly for a missing slot, as long as the hand is blank or
   * drawn.
   */
  function CardAt(h: Hand, index: int): (v: int)
    ensures 0 <= index < SlotCount ==> v == h[index]
    ensures !(0 <= index < SlotCount) ==> v == -1
    ensures Blank(h) || Drawn(h) ==> (v < 0 <==> !(0 <= index < SlotCount))
  {
    if 0 <= index < SlotCount then h[index] else -1
  }

  /** The card display of CardDisplay.cs, values only. */
  class CardDisplay {
    const currentCardValues: array<int>

    ghost predicate Valid()
      reads currentCardValues
    {
      currentCardValues.Length == SlotCount &&
      (Blank(currentCardValues[..]) || Drawn(currentCardValues[..]))
    }

    ghost function Values(): Hand
      reads currentCardValues
      requires Valid()
    {
      currentCardValues[..]
    }

    /** A fresh display: three slots, all 0 until the first draw. */
    constructor ()
      ensures Valid() && fresh(currentCardValues)
      ensures Blank(Values())
    {
      currentCardValues := new int[SlotCount](_ => 0);
    }

    /**
     * Redraws every slot. Random.Range(1, 101) excludes its upper bound, so
     * each new value lies in [1, 100]; which value comes up is left open.
     */
    method GenerateNewCards()
      requires Valid()
      modifies currentCardValues
      ensures Valid() && Drawn(Values())
    {
      for i := 0 to SlotCount
        invariant forall k :: 0 <= k < i ==> 1 <= currentCardValues[k] <= 100
      {
        var value :| 1 <= value <= 100;
        currentCardValues[i] := value;
      }
    }

    /** The value of slot `cardIndex`, or -1 for an index outside 0..2. */
    function GetCardValue(cardIndex: int): (v: int)
      reads currentCardValues
      requires Valid()
      ensures v == CardAt(Values(), cardIndex)
      ensures v < 0 <==> !(0 <= cardIndex < SlotCount)
    {
      if cardIndex >= 0 && cardIndex < SlotCount then currentCardValues[cardIndex]
      else -1
    }
  }
}
