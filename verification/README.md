# Ecosystem simulation engine — a Dafny model

This project models the per-tick engine of a small ecosystem simulation. A
`SimulationHandler` owns:

- a grid of fixed width and height;
- the list of animals, in spawn order;
- a map from each animal (by object identity) to its grid `Point`.

On construction the engine spawns six animals, two herbivores, two carnivores
and two omnivores. Each is placed at a point drawn inside the grid.

Every call to `updateSimulation` walks the list once, in order. For each
animal it first runs a three-state machine (roaming, resting, eating). It then
performs the action of the new state:

- **Roaming** spends one energy and adds one hunger, and moves the animal by at
  most one cell per axis, clamped to the grid.
- **Resting** regains two energy, up to 100.
- **Eating** sheds five hunger, down to 0.

An animal is a mutable object with six fields: state, type, health, energy,
hunger and whether it can attack. Three constructors fix the type, start the
animal roaming and set the attack flag. The two enums carry integer codes.

The model is split into five modules:

- `AnimalTypes` and `AnimalStates` (`animal_type.dfy`, `animal_state.dfy`): the
  enums and their codes.
- `Model` (`animal.dfy`): the animal class. Its fields are updated in place by
  setters. `View()` reads all six fields as one `AnimalRecord` value.
- `Rules` (`rules.dfy`): the per-animal rules of a tick, as functions on
  records. These are the clamped move, the state machine, the action of each
  state and one whole tick. Lemmas about runs of consecutive ticks sit here too.
- `Simulation` (`simulation.dfy`): the `SimulationHandler` class.
  - Its methods mutate the animal list, the position map and the animal
    objects.
  - Each method is proved against the `Rules` functions.
  - The class invariant `Valid()` holds in every state. It says the list has no
    repeats, the map's keys are exactly the listed animals, and every point is
    inside the grid.

The random source is not modelled; what it would draw becomes a parameter:

- The constructor takes the six spawn points. Each must lie in
  `[0,width) x [0,height)`.
- `UpdateSimulation` takes one displacement per listed animal. Each component
  must be in `{-1, 0, 1}`.

## Model

| member | source | states |
|---|---|---|
| AnimalTypes.Value | src/main/java/se/ecosystem/model/enums/AnimalType.java:5-17 | the code of HERBIVORE is 0, of CARNIVORE 1, of OMNIVORE 2 (all codes lie in 0..2) |
| AnimalTypes.ValueInjective | src/main/java/se/ecosystem/model/enums/AnimalType.java:5-17 | two types with the same code are the same type |
| AnimalTypes.ValueOnto | src/main/java/se/ecosystem/model/enums/AnimalType.java:5-17 | every code in 0..2 belongs to some type |
| AnimalStates.Value | src/main/java/se/ecosystem/model/enums/AnimalState.java:5-17 | the code of RESTING is 0, of ROAMING 1, of EATING 2 (all codes lie in 0..2) |
| AnimalStates.ValueInjective | src/main/java/se/ecosystem/model/enums/AnimalState.java:5-17 | two states with the same code are the same state |
| AnimalStates.ValueOnto | src/main/java/se/ecosystem/model/enums/AnimalState.java:5-17 | every code in 0..2 belongs to some state |
| Model.Animal.constructor | src/main/java/se/ecosystem/model/Animal.java:16-24 | the new animal holds exactly the six values passed |
| Model.Animal.Herbivore | src/main/java/se/ecosystem/model/AnimalHerbivore.java:10-18 | a new herbivore is roaming, of type HERBIVORE, cannot attack, and has the given health, energy and hunger |
| Model.Animal.Carnivore | src/main/java/se/ecosystem/model/AnimalCarnivore.java:8-10 | a new carnivore is roaming, of type CARNIVORE, can attack, and has the given health, energy and hunger |
| Model.Animal.Omnivore | src/main/java/se/ecosystem/model/AnimalOmnivore.java:8-10 | a new omnivore is roaming, of type OMNIVORE, can attack, and has the given health, energy and hunger |
| Model.Animal.GetState | src/main/java/se/ecosystem/model/Animal.java:26-28 | returns the current state |
| Model.Animal.GetType | src/main/java/se/ecosystem/model/Animal.java:30-32 | returns the current type |
| Model.Animal.GetHealth | src/main/java/se/ecosystem/model/Animal.java:33-35 | returns the current health |
| Model.Animal.GetEnergy | src/main/java/se/ecosystem/model/Animal.java:36-38 | returns the current energy |
| Model.Animal.GetHunger | src/main/java/se/ecosystem/model/Animal.java:39-41 | returns the current hunger |
| Model.Animal.GetCanAttack | src/main/java/se/ecosystem/model/Animal.java:42-44 | returns the current attack flag |
| Model.Animal.SetState | src/main/java/se/ecosystem/model/Animal.java:46-48 | assigns the state and returns the value assigned; the other five fields are unchanged |
| Model.Animal.SetType | src/main/java/se/ecosystem/model/Animal.java:49-51 | assigns the type and returns the value assigned; the other five fields are unchanged |
| Model.Animal.SetHealth | src/main/java/se/ecosystem/model/Animal.java:52-54 | assigns any health, with no clamping, and returns it; GetHealth then yields it; the other fields are unchanged |
| Model.Animal.SetEnergy | src/main/java/se/ecosystem/model/Animal.java:55-57 | assigns any energy, with no clamping, and returns it; GetEnergy then yields it; the other fields are unchanged |
| Model.Animal.SetHunger | src/main/java/se/ecosystem/model/Animal.java:58-60 | assigns any hunger, with no clamping, and returns it; GetHunger then yields it; the other fields are unchanged |
| Model.Animal.SetCanAttack | src/main/java/se/ecosystem/model/Animal.java:61-63 | assigns the attack flag and returns the value assigned; the other five fields are unchanged |
| Rules.Max | src/main/java/se/ecosystem/simulation/SimulationHandler.java:84 | the result is one of the two arguments and at least both |
| Rules.Min | src/main/java/se/ecosystem/simulation/SimulationHandler.java:85 | the result is one of the two arguments and at most both |
| Rules.Clamp | src/main/java/se/ecosystem/simulation/SimulationHandler.java:105-106 | the result lies in [lo, hi]; it equals v inside the range, lo below it and hi above it |
| Rules.Move | src/main/java/se/ecosystem/simulation/SimulationHandler.java:102-108 | each axis is clamped separately: a coordinate whose displaced value lies on the grid takes it, one below 0 becomes 0, one beyond the edge becomes width-1 (height-1). So the new point is always on the grid, and from an on-grid point each coordinate changes by at most 1 |
| Rules.ZeroMoveStays | src/main/java/se/ecosystem/simulation/SimulationHandler.java:102-108 | the zero displacement is not rejected and leaves an on-grid animal in place |
| Rules.NextState | src/main/java/se/ecosystem/simulation/SimulationHandler.java:56-77 | three if-and-only-if rules, one per resulting state. The energy guard (< 30 rests) is tested before the hunger guard (> 70 eats). Resting roams again iff energy >= 100. Eating roams again iff hunger <= 0 |
| Rules.Transition | src/main/java/se/ecosystem/simulation/SimulationHandler.java:56-77 | only the state changes, and it becomes the one NextState selects |
| Rules.Act | src/main/java/se/ecosystem/simulation/SimulationHandler.java:79-96 | state, type, health and attack flag are unchanged. Roaming gives energy max(0,e-1), hunger min(100,h+1). Resting gives energy min(100,e+2) and leaves hunger alone. Eating gives hunger max(0,h-5) and leaves energy alone |
| Rules.TickPosition | src/main/java/se/ecosystem/simulation/SimulationHandler.java:50-53 | an animal that is not roaming after the transition keeps its point; a roaming one takes Move; an on-grid point stays on the grid |
| Rules.Tick | src/main/java/se/ecosystem/simulation/SimulationHandler.java:50-53 | one tick keeps type, health and attack flag; the new state is NextState; hunger in [0,100] with energy >= 0 is preserved; energy <= 100 is preserved once reached |
| Rules.EnergyAboveCapPersists | src/main/java/se/ecosystem/simulation/SimulationHandler.java:34 | a carnivore as spawned (energy 150) still has energy 149 after one tick: energy <= 100 is not an invariant |
| Rules.Run | src/main/java/se/ecosystem/simulation/SimulationHandler.java:49-54 | the record after n consecutive `updateSimulation` calls has the type, health and attack flag it started with |
| Rules.RunOneMore | src/main/java/se/ecosystem/simulation/SimulationHandler.java:49-54 | n + 1 calls are n calls followed by one more tick |
| Rules.RunKeepsInvariants | src/main/java/se/ecosystem/simulation/SimulationHandler.java:49-54 | over any number of ticks the stats stay in range and type, health and attack flag stay fixed |
| Rules.RestingReturnsToRoaming | src/main/java/se/ecosystem/simulation/SimulationHandler.java:66-70 | a resting animal stays resting and is roaming again after exactly RestTicks(energy) ticks |
| Rules.EatingReturnsToRoaming | src/main/java/se/ecosystem/simulation/SimulationHandler.java:71-75 | an eating animal stays eating and is roaming again after exactly EatTicks(hunger) ticks |
| Rules.RoamingLeavesRoaming | src/main/java/se/ecosystem/simulation/SimulationHandler.java:59-64 | a roaming animal with energy >= 30 and hunger <= 70 is roaming after every one of the first min(e-29, 71-h) ticks. On the next tick it rests when e+h <= 100 (energy guard first), and eats otherwise |
| Simulation.InitialAnimal | src/main/java/se/ecosystem/simulation/SimulationHandler.java:30-39 | slots 0-1 are herbivores (health 100, energy 100, cannot attack), slots 2-3 carnivores (120, 150, can attack), slots 4-5 omnivores (110, 120, can attack); all roaming with hunger 0 |
| Simulation.InitialPopulationShape | src/main/java/se/ecosystem/simulation/SimulationHandler.java:28-40 | the initial population has two animals of each type, all roaming with stats in range; both carnivores start above energy 100 |
| Simulation.SimulationHandler.constructor | src/main/java/se/ecosystem/simulation/SimulationHandler.java:22-26 | stores the grid size and spawns six fresh animals. The i-th carries the i-th initial record at the i-th spawn point. The engine is valid, so the map's keys are exactly the listed animals |
| Simulation.SimulationHandler.SpawnAnimals | src/main/java/se/ecosystem/simulation/SimulationHandler.java:28-40 | from an empty engine, lists six fresh animals in spawn order (two herbivores, two carnivores, two omnivores, with their start stats), each at its spawn point, keeping the engine valid |
| Simulation.SimulationHandler.SpawnAnimal | src/main/java/se/ecosystem/simulation/SimulationHandler.java:42-47 | appends the animal to the list and records its point. For a new animal at an on-grid point the engine stays valid and earlier entries keep their points |
| Simulation.SimulationHandler.UpdateSimulation | src/main/java/se/ecosystem/simulation/SimulationHandler.java:49-54 | the list is unchanged and the engine stays valid. Every animal's record becomes Tick of its old record. Its point becomes TickPosition of its old record and point. Stats in range stay in range |
| Simulation.SimulationHandler.UpdateAnimal | src/main/java/se/ecosystem/simulation/SimulationHandler.java:50-53 | one loop step: the animal's record becomes Tick of the old one, and only its map entry changes, to TickPosition |
| Simulation.SimulationHandler.HandleStateTransition | src/main/java/se/ecosystem/simulation/SimulationHandler.java:56-77 | the animal's new record is Transition of the old one |
| Simulation.SimulationHandler.HandleAction | src/main/java/se/ecosystem/simulation/SimulationHandler.java:79-96 | the animal's new record is Act of the old one. The map changes only for a roaming animal that has an entry, and then only at that entry, to Move of its point |
| Simulation.SimulationHandler.MoveAnimalRandomly | src/main/java/se/ecosystem/simulation/SimulationHandler.java:98-109 | an animal with no entry leaves the map unchanged; otherwise only its entry changes, to Move of its point; the engine stays valid |
| Simulation.SimulationHandler.GetAnimalPositions | src/main/java/se/ecosystem/simulation/SimulationHandler.java:111-113 | returns the current positions. In a valid engine its keys are exactly the listed animals and every point is on the grid |

## Left out

- The JavaFX user interface (`EcosystemUI.java`) is not part of this model. It only draws the state and calls `updateSimulation`.
- `java.util.Random`: spawn coordinates and displacements are parameters, constrained to the ranges the draws can yield.
  - `UpdateSimulation` takes one displacement per listed animal. The entry for an animal that does not roam on that tick is unused.
  - The model does not capture the number or order of draws.
- Health, energy and hunger are Java `double`s; they are modelled as `int`. Every value the engine stores is integral: integer starting values, changes of -1, +1, +2 and -5, and clamps against 0 and 100.
- `Collections.unmodifiableMap`: `GetAnimalPositions` returns the map value itself. A value cannot be mutated by its receiver anyway.
- `HashMap` hashing and iteration order: the map is keyed by object reference, matching identity-based `equals` on animals.
- Java inheritance: the three animal subclasses are the named constructors `Herbivore`, `Carnivore` and `Omnivore` of the one `Animal` class. The model does not capture the run-time class of an animal object, only its fields.
- Simulation.SimulationHandler.SpawnAnimals: the six spawn statements are written as one loop over six slots. The animals, stats and order are the same.
- Simulation.SimulationHandler.constructor: requires width and height of at least 1, and spawn points inside the grid. In the Java `SimulationHandler`, `Random.nextInt` throws on an empty grid, and a drawn point always lies inside it.
- Simulation.SimulationHandler.SpawnAnimal: validity is promised only for an animal not yet listed and a point on the grid. Otherwise it states only the new list and map, because the Java `SimulationHandler` checks neither.
- Simulation.SimulationHandler.HandleAction and Simulation.SimulationHandler.MoveAnimalRandomly require a valid engine and a unit displacement. This is the range of the random draw, and every caller holds a valid engine.
- Rules.Run and the lemmas about runs of ticks describe consecutive `updateSimulation` calls for one animal. Animals never read one another's fields or positions, so one animal's run is independent of the others.
