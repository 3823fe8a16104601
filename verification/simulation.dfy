/**
 * The simulation engine: a grid of fixed size, the list of animals in spawn
 * order and the map from each animal (by identity) to its grid point.
 *
 * The engine's random source is not modelled: the spawn points and the
 * displacements it would draw are parameters, constrained to the ranges the
 * draws can yield.
 */
module Simulation {
  import opened AnimalTypes
  import opened AnimalStates
  import opened Model
  import opened Rules

  /**
   * The k-th of the six animals the engine spawns: two herbivores, two
   * carnivores, two omnivores, each roaming with hunger 0.
   */
  function InitialAnimal(k: nat): (r: AnimalRecord)
    requires k < 6
    ensures r.state == Roaming && r.hunger == 0
    ensures r.animalType == Herbivore <==> k < 2
    ensures r.animalType == Carnivore <==> 2 <= k < 4
    ensures r.animalType == Herbivore ==> r.health == 100 && r.energy == 100 && !r.canAttack
    ensures r.animalType == Carnivore ==> r.health == 120 && r.energy == 150 && r.canAttack
    ensures r.animalType == Omnivore ==> r.health == 110 && r.energy == 120 && r.canAttack
  {
    if k < 2 then AnimalRecord(Roaming, Herbivore, 100, 100, 0, false)
    else if k < 4 then AnimalRecord(Roaming, Carnivore, 120, 150, 0, true)
    else AnimalRecord(Roaming, Omnivore, 110, 120, 0, true)
  }

  /** How many of the first n spawned animals have type t. */
  function CountOfType(n: nat, t: AnimalType): (c: nat)
    requires n <= 6
    ensures c <= n
  {
    if n == 0 then 0 else CountOfType(n - 1, t) + (if InitialAnimal(n - 1).animalType == t then 1 else 0)
  }

  /**
   * The initial population holds two animals of each type; every one starts
   * roaming with its stats in range, and the carnivores' energy exceeds 100.
   */
  lemma InitialPopulationShape()
    ensures forall t :: CountOfType(6, t) == 2
    ensures forall k :: 0 <= k < 6 ==> InitialAnimal(k).state == Roaming && StatsInRange(InitialAnimal(k))
    ensures InitialAnimal(2).energy > 100 && InitialAnimal(3).energy > 100
  {
  }

  /** No animal occurs twice in the list. */
  predicate Distinct(animals: seq<Animal>) {
    forall i, j :: 0 <= i < j < |animals| ==> animals[i] != animals[j]
  }

  /** A list without repetitions has as many distinct members as entries. */
  lemma {:induction false} DistinctMembers(animals: seq<Animal>)
    requires Distinct(animals)
    ensures |set i | 0 <= i < |animals| :: animals[i]| == |animals|
  {
    if animals != [] {
      var n := |animals| - 1;
      var front := animals[..n];
      DistinctMembers(front);
      var before := set i | 0 <= i < n :: front[i];
      assert (set i | 0 <= i < |animals| :: animals[i]) == before + {animals[n]};
      assert animals[n] !in before;
    }
  }

  /**
   * A map with one key per entry of a list without repetitions, holding a
   * key for every entry, has no other keys: no position belongs to an
   * animal that is not listed.
   */
  lemma KeysListed(animals: seq<Animal>, positions: map<Animal, Point>)
    requires Distinct(animals)
    requires forall i :: 0 <= i < |animals| ==> animals[i] in positions
    requires |positions| == |animals|
    ensures forall a :: a in positions ==> a in animals
  {
    var listed := set i | 0 <= i < |animals| :: animals[i];
    DistinctMembers(animals);
    assert listed <= positions.Keys;
    var rest := positions.Keys - listed;
    assert positions.Keys == listed + rest;
    assert |positions.Keys| == |listed| + |rest|;
    assert rest == {};
  }

  class SimulationHandler {
    const width: int
    const height: int
    var animals: seq<Animal>
    var animalPositions: map<Animal, Point>

    /**
     * The grid is not empty, no animal is listed twice, the animals with a
     * position are exactly the listed ones, and every position is on the grid.
     */
    ghost predicate Valid()
      reads this
    {
      && width >= 1 && height >= 1
      && Distinct(animals)
      && (forall i :: 0 <= i < |animals| ==> animals[i] in animalPositions)
      && |animalPositions| == |animals|
      && (forall a :: a in animalPositions ==> InGrid(animalPositions[a], width, height))
    }

    /** In a valid engine, every animal with a position is listed. */
    lemma ValidKeysListed()
      ensures Valid() ==> forall a :: a in animalPositions ==> a in animals
    {
      if Valid() {
        KeysListed(animals, animalPositions);
      }
    }

    /** Every listed animal's hunger is within [0, 100] and its energy is not negative. */
    ghost predicate AllStatsInRange()
      reads this, animals
    {
      forall i :: 0 <= i < |animals| ==> StatsInRange(animals[i].View())
    }

    /**
     * Builds the engine on a width x height grid and spawns the initial
     * population; spawns[i] is the point drawn for the i-th animal.
     */
    constructor (width: int, height: int, spawns: seq<Point>)
      requires width >= 1 && height >= 1
      requires |spawns| == 6 && forall i :: 0 <= i < 6 ==> InGrid(spawns[i], width, height)
      ensures Valid() && AllStatsInRange()
      ensures this.width == width && this.height == height
      ensures |animals| == 6
      ensures forall i :: 0 <= i < 6 ==> fresh(animals[i])
      ensures forall i :: 0 <= i < 6 ==> animals[i].View() == InitialAnimal(i)
      ensures forall i :: 0 <= i < 6 ==> animalPositions[animals[i]] == spawns[i]
    {
      this.width := width;
      this.height := height;
      animals := [];
      animalPositions := map[];
      new;
      SpawnAnimals(spawns);
      forall i | 0 <= i < 6 ensures StatsInRange(animals[i].View()) {
        InitialPopulationShape();
      }
    }

    /**
     * The first k animals are listed and carry the stats and spawn points of
     * the first k slots of the initial population.
     */
    ghost predicate SpawnedPrefix(k: nat, spawns: seq<Point>)
      reads this, animals
    {
      && Valid() && |animals| == k && k <= |spawns| && k <= 6
      && forall i :: 0 <= i < k ==>
           animals[i].View() == InitialAnimal(i) && animalPositions[animals[i]] == spawns[i]
    }

    /** Appends two herbivores, two carnivores and two omnivores, in that order. */
    method SpawnAnimals(spawns: seq<Point>)
      requires Valid() && animals == []
      requires |spawns| == 6 && forall i :: 0 <= i < 6 ==> InGrid(spawns[i], width, height)
      modifies this`animals, this`animalPositions
      ensures SpawnedPrefix(6, spawns)
      ensures forall i :: 0 <= i < 6 ==> fresh(animals[i])
    {
      for k := 0 to 6
        invariant SpawnedPrefix(k, spawns)
        invariant forall i :: 0 <= i < k ==> fresh(animals[i])
      {
        var a: Animal;
        if k < 2 {
          a := new Animal.Herbivore(100, 100, 0);
        } else if k < 4 {
          a := new Animal.Carnivore(120, 150, 0);
        } else {
          a := new Animal.Omnivore(110, 120, 0);
        }
        assert a.View() == InitialAnimal(k);
        ghost var listed := animals;
        SpawnAnimal(a, spawns[k]);
        forall i | 0 <= i < k + 1
          ensures animals[i].View() == InitialAnimal(i) && animalPositions[animals[i]] == spawns[i]
        {
          if i < k {
            assert animals[i] == listed[i];
          }
        }
      }
    }

    /**
     * Appends the animal to the list and records the point drawn for it.
     * When the animal was not yet listed and the point is on the grid, the
     * engine stays valid and every earlier entry keeps its point.
     */
    method SpawnAnimal(animal: Animal, p: Point)
      modifies this`animals, this`animalPositions
      ensures animals == old(animals) + [animal]
      ensures animalPositions == old(animalPositions)[animal := p]
      ensures old(Valid()) && animal !in old(animals) && InGrid(p, width, height) ==>
        && Valid()
        && animalPositions[animal] == p
        && forall i :: 0 <= i < |old(animals)| ==> animalPositions[animals[i]] == old(animalPositions[animals[i]])
    {
      ValidKeysListed();
      animals := animals + [animal];
      animalPositions := animalPositions[animal := p];
    }

    /**
     * One tick: every listed animal, in list order, takes its state
     * transition and then the action of its new state; moves[i] is the
     * displacement drawn if the i-th animal roams. Animals do not affect one
     * another, so each one ends exactly as Tick and Move say.
     */
    method UpdateSimulation(moves: seq<Offset>)
      requires Valid()
      requires |moves| == |animals| && forall i :: 0 <= i < |moves| ==> IsUnitOffset(moves[i])
      modifies this`animalPositions, animals
      ensures Valid() && animals == old(animals)
      ensures forall i :: 0 <= i < |animals| ==> animals[i].View() == Tick(old(animals[i].View()))
      ensures forall i :: 0 <= i < |animals| ==>
        animalPositions[animals[i]] ==
          TickPosition(old(animals[i].View()), old(animalPositions[animals[i]]), moves[i], width, height)
      ensures old(AllStatsInRange()) ==> AllStatsInRange()
    {
      ghost var views := ViewsOf(animals);
      ghost var positions := animalPositions;
      for i := 0 to |animals|
        invariant Valid()
        invariant forall k :: 0 <= k < |animals| ==>
          animals[k].View() == (if k < i then Tick(views[k]) else views[k])
        invariant forall k :: 0 <= k < |animals| ==>
          animalPositions[animals[k]] ==
            (if k < i then TickPosition(views[k], positions[animals[k]], moves[k], width, height)
             else positions[animals[k]])
      {
        assert forall k :: 0 <= k < |animals| && k != i ==> animals[k] != animals[i];
        UpdateAnimal(animals[i], moves[i]);
      }
    }

    /** One animal's share of a tick: its transition, then its action. */
    method UpdateAnimal(animal: Animal, d: Offset)
      requires Valid() && IsUnitOffset(d) && animal in animalPositions
      modifies this`animalPositions, animal
      ensures Valid()
      ensures animal.View() == Tick(old(animal.View()))
      ensures animalPositions ==
        old(animalPositions)[animal := TickPosition(old(animal.View()), old(animalPositions[animal]), d, width, height)]
    {
      HandleStateTransition(animal);
      HandleAction(animal, d);
    }

    /** Sets the animal's state to the one NextState selects; nothing else changes. */
    method HandleStateTransition(animal: Animal)
      modifies animal
      ensures animal.View() == Transition(old(animal.View()))
    {
      match animal.GetState()
      case Roaming =>
        if animal.GetEnergy() < 30 {
          var _ := animal.SetState(Resting);
        } else if animal.GetHunger() > 70 {
          var _ := animal.SetState(Eating);
        }
      case Resting =>
        if animal.GetEnergy() >= 100 {
          var _ := animal.SetState(Roaming);
        }
      case Eating =>
        if animal.GetHunger() <= 0 {
          var _ := animal.SetState(Roaming);
        }
    }

    /**
     * Performs the action of the animal's current state: the counter updates
     * Act describes and, when roaming, the move of its map entry.
     */
    method HandleAction(animal: Animal, d: Offset)
      requires Valid() && IsUnitOffset(d)
      modifies this`animalPositions, animal
      ensures Valid()
      ensures animal.View() == Act(old(animal.View()))
      ensures animalPositions ==
        if old(animal.state) == Roaming && animal in old(animalPositions)
        then old(animalPositions)[animal := Move(old(animalPositions[animal]), d, width, height)]
        else old(animalPositions)
    {
      match animal.GetState()
      case Roaming =>
        MoveAnimalRandomly(animal, d);
        var _ := animal.SetEnergy(Max(0, animal.GetEnergy() - 1));
        var _ := animal.SetHunger(Min(100, animal.GetHunger() + 1));
      case Resting =>
        var _ := animal.SetEnergy(Min(100, animal.GetEnergy() + 2));
      case Eating =>
        var _ := animal.SetHunger(Max(0, animal.GetHunger() - 5));
    }

    /**
     * Replaces the animal's map entry by its clamped move; an animal without
     * an entry is left alone, and no other entry changes.
     */
    method MoveAnimalRandomly(animal: Animal, d: Offset)
      requires Valid() && IsUnitOffset(d)
      modifies this`animalPositions
      ensures Valid()
      ensures animal !in old(animalPositions) ==> animalPositions == old(animalPositions)
      ensures animal in old(animalPositions) ==>
        animalPositions == old(animalPositions)[animal := Move(old(animalPositions[animal]), d, width, height)]
    {
      if animal !in animalPositions {
        return;
      }
      var currentPos := animalPositions[animal];
      animalPositions := animalPositions[animal := Move(currentPos, d, width, height)];
    }

    /** The current position map: one in-grid entry for every listed animal. */
    function GetAnimalPositions(): (m: map<Animal, Point>)
      reads this
      ensures m.Keys == animalPositions.Keys && forall a :: a in m ==> m[a] == animalPositions[a]
      ensures Valid() ==> forall i :: 0 <= i < |animals| ==> animals[i] in m
      ensures Valid() ==> forall a :: a in m ==> a in animals && InGrid(m[a], width, height)
    {
      ValidKeysListed();
      animalPositions
    }
  }
}
