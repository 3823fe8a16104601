/**
 * The per-animal rules of one simulation tick, as functions on values: the
 * grid point, the clamped move, the three-state machine and the action each
 * state performs. The SimulationHandler class applies them to its objects.
 */
module Rules {
  import opened AnimalTypes
  import opened AnimalStates
  import opened Model

  /** A grid coordinate. */
  datatype Point = Point(x: int, y: int)

  /** A displacement drawn by the random source, one per axis. */
  datatype Offset = Offset(dx: int, dy: int)

  predicate InGrid(p: Point, width: int, height: int) {
    0 <= p.x < width && 0 <= p.y < height
  }

  /** Each component is one of -1, 0 and 1, the only values the random draw yields. */
  predicate IsUnitOffset(d: Offset) {
    -1 <= d.dx <= 1 && -1 <= d.dy <= 1
  }

  function Max(a: int, b: int): (r: int)
    ensures r >= a && r >= b && (r == a || r == b)
  {
    if a >= b then a else b
  }

  function Min(a: int, b: int): (r: int)
    ensures r <= a && r <= b && (r == a || r == b)
  {
    if a <= b then a else b
  }

  /** max(lo, min(hi, v)): the nearest value to v in [lo, hi]. */
  function Clamp(v: int, lo: int, hi: int): (r: int)
    requires lo <= hi
    ensures lo <= r <= hi
    ensures lo <= v <= hi ==> r == v
    ensures v < lo ==> r == lo
    ensures v > hi ==> r == hi
  {
    Max(lo, Min(hi, v))
  }

  /** The point an animal at p moves to with displacement d, clamped to the grid. */
  function Move(p: Point, d: Offset, width: int, height: int): (q: Point)
    requires width >= 1 && height >= 1
    requires IsUnitOffset(d)
    ensures InGrid(q, width, height)
    ensures InGrid(p, width, height) ==> -1 <= q.x - p.x <= 1 && -1 <= q.y - p.y <= 1
    ensures InGrid(Point(p.x + d.dx, p.y + d.dy), width, height) ==> q == Point(p.x + d.dx, p.y + d.dy)
    ensures 0 <= p.x + d.dx < width ==> q.x == p.x + d.dx
    ensures p.x + d.dx < 0 ==> q.x == 0
    ensures p.x + d.dx >= width ==> q.x == width - 1
    ensures 0 <= p.y + d.dy < height ==> q.y == p.y + d.dy
    ensures p.y + d.dy < 0 ==> q.y == 0
    ensures p.y + d.dy >= height ==> q.y == height - 1
  {
    Point(Clamp(p.x + d.dx, 0, width - 1), Clamp(p.y + d.dy, 0, height - 1))
  }

  /** The zero displacement is not rejected: it leaves an in-grid animal where it is. */
  lemma ZeroMoveStays(p: Point, width: int, height: int)
    requires InGrid(p, width, height)
    ensures Move(p, Offset(0, 0), width, height) == p
  {
  }

  /**
   * The state machine. A roaming animal rests when its energy is below 30,
   * and otherwise eats when its hunger is above 70; the energy guard is
   * tested first. A resting animal roams again once its energy reaches 100,
   * an eating animal once its hunger reaches 0.
   */
  function NextState(s: AnimalState, energy: int, hunger: int): (r: AnimalState)
    ensures r == Resting <==> (s == Roaming && energy < 30) || (s == Resting && energy < 100)
    ensures r == Eating <==> (s == Roaming && energy >= 30 && hunger > 70) || (s == Eating && hunger > 0)
    ensures r == Roaming <==>
              (s == Roaming && energy >= 30 && hunger <= 70) || (s == Resting && energy >= 100) || (s == Eating && hunger <= 0)
  {
    match s
    case Roaming => if energy < 30 then Resting else if hunger > 70 then Eating else Roaming
    case Resting => if energy >= 100 then Roaming else Resting
    case Eating => if hunger <= 0 then Roaming else Eating
  }

  /** The state transition applied to a whole animal: only the state may change. */
  function Transition(a: AnimalRecord): (r: AnimalRecord)
    ensures r.(state := a.state) == a
    ensures r.state == NextState(a.state, a.energy, a.hunger)
  {
    a.(state := NextState(a.state, a.energy, a.hunger))
  }

  /**
   * The counters the action of the animal's current state updates. Roaming
   * spends one energy (not below 0) and adds one hunger (not above 100);
   * resting adds two energy (not above 100); eating removes five hunger (not
   * below 0). The move that roaming also makes is Move, applied to the
   * position map.
   */
  function Act(a: AnimalRecord): (r: AnimalRecord)
    ensures r.state == a.state && r.animalType == a.animalType
    ensures r.health == a.health && r.canAttack == a.canAttack
    ensures a.state == Roaming ==> r.energy == Max(0, a.energy - 1) && r.hunger == Min(100, a.hunger + 1)
    ensures a.state == Resting ==> r.energy == Min(100, a.energy + 2) && r.hunger == a.hunger
    ensures a.state == Eating ==> r.energy == a.energy && r.hunger == Max(0, a.hunger - 5)
  {
    match a.state
    case Roaming => a.(energy := Max(0, a.energy - 1), hunger := Min(100, a.hunger + 1))
    case Resting => a.(energy := Min(100, a.energy + 2))
    case Eating => a.(hunger := Max(0, a.hunger - 5))
  }

  /**
   * The animal's point after its tick: it moves only when the transition
   * leaves it roaming, and then by Move.
   */
  function TickPosition(a: AnimalRecord, p: Point, d: Offset, width: int, height: int): (q: Point)
    requires width >= 1 && height >= 1 && IsUnitOffset(d)
    ensures InGrid(p, width, height) ==> InGrid(q, width, height)
    ensures Tick(a).state != Roaming ==> q == p
    ensures Tick(a).state == Roaming ==> q == Move(p, d, width, height)
  {
    if Transition(a).state == Roaming then Move(p, d, width, height) else p
  }

  /** Hunger within [0, 100] and energy not negative: what every tick keeps. */
  predicate StatsInRange(a: AnimalRecord) {
    0 <= a.hunger <= 100 && 0 <= a.energy
  }

  /** One tick of one animal's record: the transition, then the action of the new state. */
  function Tick(a: AnimalRecord): (r: AnimalRecord)
    ensures r.animalType == a.animalType && r.health == a.health && r.canAttack == a.canAttack
    ensures r.state == NextState(a.state, a.energy, a.hunger)
    ensures StatsInRange(a) ==> StatsInRange(r)
    ensures 0 <= a.energy <= 100 ==> r.energy <= 100
  {
    Act(Transition(a))
  }

  /**
   * Energy above 100 is not corrected by a tick: a carnivore as spawned
   * (energy 150) still has more than 100 after its first tick.
   */
  lemma EnergyAboveCapPersists()
    ensures Tick(AnimalRecord(Roaming, Carnivore, 120, 150, 0, true)).energy == 149
  {
  }

  /** The record after n consecutive ticks; no tick changes type, health or the attack flag. */
  function Run(a: AnimalRecord, n: nat): (r: AnimalRecord)
    ensures r.animalType == a.animalType && r.health == a.health && r.canAttack == a.canAttack
    decreases n
  {
    if n == 0 then a else Run(Tick(a), n - 1)
  }

  /** One more tick after n ticks is the (n + 1)-th tick: Run composes consecutive ticks. */
  lemma {:induction false} RunOneMore(a: AnimalRecord, n: nat)
    ensures Run(a, n + 1) == Tick(Run(a, n))
    decreases n
  {
    if n > 0 {
      RunOneMore(Tick(a), n - 1);
    }
  }

  /** Over any number of ticks, health, type and canAttack stay fixed and the stats stay in range. */
  lemma {:induction false} RunKeepsInvariants(a: AnimalRecord, n: nat)
    requires StatsInRange(a)
    ensures var r := Run(a, n);
      StatsInRange(r) && r.animalType == a.animalType && r.health == a.health && r.canAttack == a.canAttack
    decreases n
  {
    if n > 0 {
      RunKeepsInvariants(Tick(a), n - 1);
    }
  }

  /** Ticks a resting animal with the given energy spends until it is roaming again. */
  function RestTicks(energy: int): nat {
    if energy >= 100 then 1 else (101 - energy) / 2 + 1
  }

  /** A resting animal regains two energy a tick and is roaming after RestTicks ticks. */
  lemma {:induction false} RestingReturnsToRoaming(a: AnimalRecord)
    requires a.state == Resting
    ensures Run(a, RestTicks(a.energy)).state == Roaming
    ensures forall k :: 0 < k < RestTicks(a.energy) ==> Run(a, k).state == Resting
    decreases 100 - a.energy
  {
    if a.energy < 100 {
      var b := Tick(a);
      assert b.state == Resting && b.energy == Min(100, a.energy + 2);
      assert RestTicks(b.energy) == RestTicks(a.energy) - 1;
      RestingReturnsToRoaming(b);
      forall k | 0 < k < RestTicks(a.energy) ensures Run(a, k).state == Resting {
        assert Run(a, k) == Run(b, k - 1);
      }
    }
  }

  /** Ticks an eating animal with the given hunger spends until it is roaming again. */
  function EatTicks(hunger: int): nat {
    if hunger <= 0 then 1 else (hunger + 4) / 5 + 1
  }

  /** An eating animal loses five hunger a tick and is roaming after EatTicks ticks. */
  lemma {:induction false} EatingReturnsToRoaming(a: AnimalRecord)
    requires a.state == Eating
    ensures Run(a, EatTicks(a.hunger)).state == Roaming
    ensures forall k :: 0 < k < EatTicks(a.hunger) ==> Run(a, k).state == Eating
    decreases a.hunger
  {
    if a.hunger > 0 {
      var b := Tick(a);
      assert b.state == Eating && b.hunger == Max(0, a.hunger - 5);
      assert EatTicks(b.hunger) == EatTicks(a.hunger) - 1;
      EatingReturnsToRoaming(b);
      forall k | 0 < k < EatTicks(a.hunger) ensures Run(a, k).state == Eating {
        assert Run(a, k) == Run(b, k - 1);
      }
    }
  }

  /**
   * A roaming animal with energy at least 30 and hunger at most 70 keeps
   * roaming until one of the two guards fires. If both fire on the same tick
   * (energy + hunger == 100), the energy guard wins and the animal rests.
   */
  lemma {:induction false} RoamingLeavesRoaming(a: AnimalRecord)
    requires a.state == Roaming && a.energy >= 30 && a.hunger <= 70
    ensures var n := Min(a.energy - 29, 71 - a.hunger);
      (forall k :: 0 <= k <= n ==> Run(a, k).state == Roaming) &&
      Run(a, n + 1).state == (if a.energy + a.hunger <= 100 then Resting else Eating)
    decreases a.energy
  {
    var n := Min(a.energy - 29, 71 - a.hunger);
    var b := Tick(a);
    assert b == a.(energy := a.energy - 1, hunger := a.hunger + 1);
    if n == 1 {
      assert Run(a, 1) == b;
      assert Run(a, 2) == Run(b, 1) == Tick(b);
      assert Run(a, 0) == a;
    } else {
      RoamingLeavesRoaming(b);
      forall k | 0 < k <= n ensures Run(a, k).state == Roaming {
        assert Run(a, k) == Run(b, k - 1);
      }
      assert Run(a, n + 1) == Run(b, n);
    }
  }
}
