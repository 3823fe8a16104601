/** The dietary category of an animal, with the integer code each constant carries. */
module AnimalTypes {

  datatype AnimalType = Herbivore | Carnivore | Omnivore

  /** The constant's integer code: Herbivore 0, Carnivore 1, Omnivore 2. */
  function Value(t: AnimalType): (v: int)
    ensures 0 <= v <= 2
    ensures v == 0 <==> t == Herbivore
    ensures v == 1 <==> t == Carnivore
  {
    match t
    case Herbivore => 0
    case Carnivore => 1
    case Omnivore => 2
  }

  /** Distinct constants carry distinct codes. */
  lemma ValueInjective(s: AnimalType, t: AnimalType)
    ensures Value(s) == Value(t) ==> s == t
  {
  }

  /** Every code in 0..2 belongs to some constant. */
  lemma ValueOnto(v: int)
    requires 0 <= v <= 2
    ensures exists t :: Value(t) == v
  {
    if v == 0 {
      assert Value(Herbivore) == v;
    } else if v == 1 {
      assert Value(Carnivore) == v;
    } else {
      assert Value(Omnivore) == v;
    }
  }
}
