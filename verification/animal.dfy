/**
 * The animal record: a mutable object holding state, type, health, energy,
 * hunger and the attack capability. The three kinds of animal differ only in
 * the constants their constructors pass, so they are the named constructors
 * Herbivore, Carnivore and Omnivore of the one class.
 *
 * Health, energy and hunger are integers: every value the simulation ever
 * stores in them is integral.
 */
module Model {
  import opened AnimalTypes
  import opened AnimalStates

  /** The value of all six fields of an animal at one moment. */
  datatype AnimalRecord = AnimalRecord(
    state: AnimalState,
    animalType: AnimalType,
    health: int,
    energy: int,
    hunger: int,
    canAttack: bool)

  /** The records of a list of animals, in list order. */
  function ViewsOf(animals: seq<Animal>): (r: seq<AnimalRecord>)
    reads animals
    ensures |r| == |animals| && forall i :: 0 <= i < |animals| ==> r[i] == animals[i].View()
  {
    seq(|animals|, i requires 0 <= i < |animals| reads animals => animals[i].View())
  }

  class Animal {
    var state: AnimalState
    var animalType: AnimalType
    var health: int
    var energy: int
    var hunger: int
    var canAttack: bool

    /** The current value of every field, as one record. */
    function View(): AnimalRecord
      reads this
    {
      AnimalRecord(state, animalType, health, energy, hunger, canAttack)
    }

    /** Stores every argument unchanged; nothing is checked or clamped. */
    constructor (state: AnimalState, animalType: AnimalType, health: int, energy: int, hunger: int, canAttack: bool)
      ensures View() == AnimalRecord(state, animalType, health, energy, hunger, canAttack)
    {
      this.state := state;
      this.animalType := animalType;
      this.health := health;
      this.energy := energy;
      this.hunger := hunger;
      this.canAttack := canAttack;
    }

    /** A herbivore starts roaming and cannot attack. */
    constructor Herbivore(health: int, energy: int, hunger: int)
      ensures View() == AnimalRecord(Roaming, AnimalType.Herbivore, health, energy, hunger, false)
    {
      state, animalType := Roaming, AnimalType.Herbivore;
      this.health, this.energy, this.hunger := health, energy, hunger;
      canAttack := false;
    }

    /** A carnivore starts roaming and can attack. */
    constructor Carnivore(health: int, energy: int, hunger: int)
      ensures View() == AnimalRecord(Roaming, AnimalType.Carnivore, health, energy, hunger, true)
    {
      state, animalType := Roaming, AnimalType.Carnivore;
      this.health, this.energy, this.hunger := health, energy, hunger;
      canAttack := true;
    }

    /** An omnivore starts roaming and can attack. */
    constructor Omnivore(health: int, energy: int, hunger: int)
      ensures View() == AnimalRecord(Roaming, AnimalType.Omnivore, health, energy, hunger, true)
    {
      state, animalType := Roaming, AnimalType.Omnivore;
      this.health, this.energy, this.hunger := health, energy, hunger;
      canAttack := true;
    }

    function GetState(): (r: AnimalState)
      reads this
      ensures r == View().state
    {
      state
    }

    function GetType(): (r: AnimalType)
      reads this
      ensures r == View().animalType
    {
      animalType
    }

    function GetHealth(): (r: int)
      reads this
      ensures r == View().health
    {
      health
    }

    function GetEnergy(): (r: int)
      reads this
      ensures r == View().energy
    {
      energy
    }

    function GetHunger(): (r: int)
      reads this
      ensures r == View().hunger
    {
      hunger
    }

    function GetCanAttack(): (r: bool)
      reads this
      ensures r == View().canAttack
    {
      canAttack
    }

    // Each setter assigns its own field, returns the value it assigned and
    // leaves the other five fields as they were. None of them clamps.

    method SetState(state: AnimalState) returns (r: AnimalState)
      modifies this
      ensures r == state && GetState() == state
      ensures View() == old(View()).(state := state)
    {
      this.state := state;
      r := state;
    }

    method SetType(animalType: AnimalType) returns (r: AnimalType)
      modifies this
      ensures r == animalType && GetType() == animalType
      ensures View() == old(View()).(animalType := animalType)
    {
      this.animalType := animalType;
      r := animalType;
    }

    method SetHealth(health: int) returns (r: int)
      modifies this
      ensures r == health && GetHealth() == health
      ensures View() == old(View()).(health := health)
    {
      this.health := health;
      r := health;
    }

    method SetEnergy(energy: int) returns (r: int)
      modifies this
      ensures r == energy && GetEnergy() == energy
      ensures View() == old(View()).(energy := energy)
    {
      this.energy := energy;
      r := energy;
    }

    method SetHunger(hunger: int) returns (r: int)
      modifies this
      ensures r == hunger && GetHunger() == hunger
      ensures View() == old(View()).(hunger := hunger)
    {
      this.hunger := hunger;
      r := hunger;
    }

    method SetCanAttack(canAttack: bool) returns (r: bool)
      modifies this
      ensures r == canAttack && GetCanAttack() == canAttack
      ensures View() == old(View()).(canAttack := canAttack)
    {
      this.canAttack := canAttack;
      r := canAttack;
    }
  }
}
