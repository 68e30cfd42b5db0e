/**
 * The hit-quality vocabulary shared by the timing zones, the ball and the
 * rally state machine, with its declaration order as a total order.
 */
module Quality {

  /** Declared in this order, so Miss < Bad < Fine < Good < Perfect. */
  datatype HitQuality = Miss | Bad | Fine | Good | Perfect

  /** Position of a quality in the declaration order. */
  function Rank(q: HitQuality): nat
  {
    match q
    case Miss => 0
    case Bad => 1
    case Fine => 2
    case Good => 3
    case Perfect => 4
  }

  /** `a` is no better than `b`. */
  predicate AtMost(a: HitQuality, b: HitQuality)
  {
    Rank(a) <= Rank(b)
  }

  /** The four qualities a timing zone can flag on the ball (every one but Miss). */
  const ZoneQualities: set<HitQuality> := {Bad, Fine, Good, Perfect}

  /** AtMost is reflexive, antisymmetric, transitive and total. */
  lemma AtMostIsTotalOrder()
    ensures forall a :: AtMost(a, a)
    ensures forall a, b :: AtMost(a, b) && AtMost(b, a) ==> a == b
    ensures forall a, b, c :: AtMost(a, b) && AtMost(b, c) ==> AtMost(a, c)
    ensures forall a, b :: AtMost(a, b) || AtMost(b, a)
  {
  }

  /** The declaration order, spelled out. */
  lemma DeclarationOrder()
    ensures AtMost(Miss, Bad) && !AtMost(Bad, Miss)
    ensures AtMost(Bad, Fine) && !AtMost(Fine, Bad)
    ensures AtMost(Fine, Good) && !AtMost(Good, Fine)
    ensures AtMost(Good, Perfect) && !AtMost(Perfect, Good)
    ensures forall q :: AtMost(Miss, q) && AtMost(q, Perfect)
  {
  }
}
