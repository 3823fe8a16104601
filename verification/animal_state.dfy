/** The behavioural state of an animal, with the integer code each constant carries. */
module AnimalStates {

  datatype AnimalState = Resting | Roaming | Eating

  /** The constant's integer code: Resting 0, Roaming 1, Eating 2. */
  function Value(s: AnimalState): (v: int)
    ensures 0 <= v <= 2
    ensures v == 0 <==> s == Resting
    ensures v == 1 <==> s == Roaming
  {
    match s
    case Resting => 0
    case Roaming => 1
    case Eating => 2
  }

  /** Distinct constants carry distinct codes. */
  lemma ValueInjective(s: AnimalState, t: AnimalState)
    ensures Value(s) == Value(t) ==> s == t
  {
  }

  /** Every code in 0..2 belongs to some constant. */
  lemma ValueOnto(v: int)
    requires 0 <= v <= 2
    ensures exists s :: Value(s) == v
  {
    if v == 0 {
      assert Value(Resting) == v;
    } else if v == 1 {
      assert Value(Roaming) == v;
    } else {
      assert Value(Eating) == v;
    }
  }
}
