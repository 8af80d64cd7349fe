/** An area of the world: its biome, its fixed spawn configuration and the
    number of enemies of each kind currently living in it. */
module Habitat {
  import opened Evolution

  /** Largest value of the source's unsigned 32-bit counters. */
  const U32_MAX: nat := 0xFFFF_FFFF

  datatype Biome = Swamp | Prarie | Mountain

  /** The four per-kind enemy counters of an area, as a value. */
  datatype Counters = Counters(frogs: nat, lizards: nat, mice: nat, birds: nat) {

    /** The population an area caches: the sum of the four counters. */
    function Total(): nat {
      frogs + lizards + mice + birds
    }

    /** The counter that belongs to `kind`. */
    function Count(kind: Enemies): nat {
      match kind
      case Frog => frogs
      case Lizard => lizards
      case Mouse => mice
      case Bird => birds
    }
  }

  /** An area with no enemy of any kind. */
  const NoEnemies := Counters(0, 0, 0, 0)

  /** A population of zero means no enemy of any kind is left. */
  lemma EmptyIffNoPopulation(c: Counters)
    ensures c.Total() == 0 <==> c == NoEnemies
  {
  }

  /** One drawn enemy of kind `kind` joins the area. */
  function Add(c: Counters, kind: Enemies): (r: Counters)
    ensures forall k :: r.Count(k) == c.Count(k) + (if k == kind then 1 else 0)
    ensures r.Total() == c.Total() + 1
  {
    match kind
    case Frog => c.(frogs := c.frogs + 1)
    case Lizard => c.(lizards := c.lizards + 1)
    case Mouse => c.(mice := c.mice + 1)
    case Bird => c.(birds := c.birds + 1)
  }

  /** One enemy of kind `kind` is killed; there must be one to kill. */
  function Remove(c: Counters, kind: Enemies): (r: Counters)
    requires c.Count(kind) > 0
    ensures forall k :: r.Count(k) == c.Count(k) - (if k == kind then 1 else 0)
    ensures r.Total() == c.Total() - 1
  {
    match kind
    case Frog => c.(frogs := c.frogs - 1)
    case Lizard => c.(lizards := c.lizards - 1)
    case Mouse => c.(mice := c.mice - 1)
    case Bird => c.(birds := c.birds - 1)
  }

  /** The counters after each of `draws`, in order, has joined the area. */
  function AddAll(c: Counters, draws: seq<Enemies>): Counters
    decreases |draws|
  {
    if draws == [] then c else Add(AddAll(c, draws[..|draws| - 1]), draws[|draws| - 1])
  }

  /** Killing the enemy that just arrived restores the counters. */
  lemma RemoveUndoesAdd(c: Counters, kind: Enemies)
    ensures Add(c, kind).Count(kind) > 0 && Remove(Add(c, kind), kind) == c
  {
  }

  /** Each counter grows by exactly the number of draws of its kind. */
  lemma {:induction false} AddAllCount(c: Counters, draws: seq<Enemies>, kind: Enemies)
    ensures AddAll(c, draws).Count(kind) == c.Count(kind) + multiset(draws)[kind]
    decreases |draws|
  {
    if draws != [] {
      var init, last := draws[..|draws| - 1], draws[|draws| - 1];
      assert draws == init + [last];
      AddAllCount(c, init, kind);
    }
  }

  /** The population grows by exactly the number of draws. */
  lemma {:induction false} AddAllTotal(c: Counters, draws: seq<Enemies>)
    ensures AddAll(c, draws).Total() == c.Total() + |draws|
    decreases |draws|
  {
    if draws != [] {
      AddAllTotal(c, draws[..|draws| - 1]);
    }
  }

  /** An area. Its biome, capacity and spawn chances are fixed when it is
      created; its counters change as enemies spawn and are killed, and
      `population` caches their sum. */
  class Location {
    const biome: Biome
    const capacity: nat

    var frogs: nat
    var lizards: nat
    var mice: nat
    var birds: nat

    const frogChance: real
    const lizardChance: real
    const miceChance: real
    const birdChance: real

    var population: nat

    /** The cached population is the sum of the counters, and everything fits
        the source's unsigned 32-bit fields. */
    ghost predicate Valid()
      reads this
    {
      population == frogs + lizards + mice + birds
      && population <= U32_MAX
      && capacity <= U32_MAX
    }

    function Counts(): Counters
      reads this
    {
      Counters(frogs, lizards, mice, birds)
    }

    /** The spawn weight of `kind`. */
    function Chance(kind: Enemies): real {
      match kind
      case Frog => frogChance
      case Lizard => lizardChance
      case Mouse => miceChance
      case Bird => birdChance
    }

    /** What a spawn on this area may draw: one enemy per unit of capacity,
        each of a kind with positive weight, since a weighted draw never
        yields a zero-weight kind. */
    predicate Drawable(draws: seq<Enemies>) {
      |draws| == capacity && forall i :: 0 <= i < |draws| ==> Chance(draws[i]) > 0.0
    }

    /** `Location::swamp`: an empty swamp of capacity 5 in which every kind can spawn. */
    constructor Swamp()
      ensures Valid() && Counts() == NoEnemies && population == 0
      ensures biome == Biome.Swamp && capacity == 5
      ensures frogChance == 0.50 && lizardChance == 0.35 && miceChance == 0.10 && birdChance == 0.05
      ensures forall kind :: Chance(kind) > 0.0
    {
      biome := Biome.Swamp;
      capacity := 5;
      frogs, lizards, mice, birds := 0, 0, 0, 0;
      frogChance, lizardChance, miceChance, birdChance := 0.50, 0.35, 0.10, 0.05;
      population := 0;
    }

    /** `Location::prarie`: an empty prairie of capacity 8 whose weights are all zero. */
    constructor Prarie()
      ensures Valid() && Counts() == NoEnemies && population == 0
      ensures biome == Biome.Prarie && capacity == 8
      ensures forall kind :: Chance(kind) == 0.0
    {
      biome := Biome.Prarie;
      capacity := 8;
      frogs, lizards, mice, birds := 0, 0, 0, 0;
      frogChance, lizardChance, miceChance, birdChance := 0.0, 0.0, 0.0, 0.0;
      population := 0;
    }

    /** `spawn_enemies`: in a swamp, `capacity` drawn enemies join the area one
        at a time, the cached population kept equal to the sum after each;
        in any other biome nothing happens. The draws come from outside. */
    method SpawnEnemies(draws: seq<Enemies>)
      requires Valid()
      requires biome == Biome.Swamp ==> Drawable(draws) && population + capacity <= U32_MAX
      modifies this
      ensures Valid()
      ensures Counts() == if biome == Biome.Swamp then AddAll(old(Counts()), draws) else old(Counts())
      ensures population == old(population) + if biome == Biome.Swamp then capacity else 0
    {
      match biome
      case Swamp =>
        var i := 0;
        while i < capacity
          invariant 0 <= i <= capacity
          invariant Counts() == AddAll(old(Counts()), draws[..i])
          invariant population == frogs + lizards + mice + birds == old(population) + i
        {
          match draws[i] {
            case Frog => frogs := frogs + 1;
            case Lizard => lizards := lizards + 1;
            case Mouse => mice := mice + 1;
            case Bird => birds := birds + 1;
          }
          population := frogs + lizards + mice + birds;
          assert draws[..i + 1][..i] == draws[..i];
          i := i + 1;
        }
        assert draws[..i] == draws;
      case Prarie =>
      case Mountain =>
    }

    /** `kill_enemy`: one enemy of kind `enemy` dies. The counter must be
        positive, since the source's unsigned subtraction would underflow. */
    method KillEnemy(enemy: Enemies)
      requires Valid()
      requires Counts().Count(enemy) > 0
      modifies this
      ensures Valid()
      ensures Counts() == Remove(old(Counts()), enemy)
      ensures population == old(population) - 1
    {
      match enemy {
        case Frog => frogs := frogs - 1;
        case Lizard => lizards := lizards - 1;
        case Mouse => mice := mice - 1;
        case Bird => birds := birds - 1;
      }
      population := frogs + lizards + mice + birds;
    }
  }
}
