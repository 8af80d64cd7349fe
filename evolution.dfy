/** The snake's evolution tiers, the enemy kinds, and the `collect` transition
    that changes the tier when an enemy is eaten. */
module Evolution {

  /** The evolution tier of the player snake. */
  datatype State = Snake | BronzeSnake | SilverSnake | GoldSnake | DiamondSnake

  /** The kinds of enemy an area can hold. */
  datatype Enemies = Frog | Lizard | Mouse | Bird

  /** The transition table of `Snake::collect`: a frog only promotes the base
      tier, every other kind sets the tier outright. */
  function Evolve(state: State, power: Enemies): State {
    match (state, power)
    case (Snake, Frog) => BronzeSnake
    case (BronzeSnake, Frog) => BronzeSnake
    case (SilverSnake, Frog) => SilverSnake
    case (GoldSnake, Frog) => GoldSnake
    case (DiamondSnake, Frog) => DiamondSnake
    case (_, Lizard) => SilverSnake
    case (_, Mouse) => GoldSnake
    case (_, Bird) => DiamondSnake
  }

  /** Position of a tier in the intended progression Snake < Bronze < Silver < Gold < Diamond. */
  function Rank(state: State): nat {
    match state
    case Snake => 0
    case BronzeSnake => 1
    case SilverSnake => 2
    case GoldSnake => 3
    case DiamondSnake => 4
  }

  /** A lizard, a mouse or a bird fixes the next tier whatever the tier before. */
  lemma CollectIgnoresTier(state: State, other: State, power: Enemies)
    requires power != Frog
    ensures Evolve(state, power) == Evolve(other, power)
    ensures power == Lizard ==> Evolve(state, power) == SilverSnake
    ensures power == Mouse ==> Evolve(state, power) == GoldSnake
    ensures power == Bird ==> Evolve(state, power) == DiamondSnake
  {
  }

  /** A frog promotes the base tier to bronze and leaves every other tier as it was. */
  lemma CollectFrog(state: State)
    ensures Evolve(state, Frog) == state <==> state != Snake
    ensures Evolve(State.Snake, Frog) == BronzeSnake
  {
  }

  /** The tier goes down exactly when a lizard meets a gold or diamond snake,
      or a mouse meets a diamond snake; a frog never lowers it. */
  lemma CollectDemotes(state: State, power: Enemies)
    ensures Rank(Evolve(state, power)) < Rank(state)
            <==> (power == Lizard && Rank(state) > Rank(SilverSnake))
                 || (power == Mouse && state == DiamondSnake)
    ensures power == Frog ==> Rank(Evolve(state, power)) >= Rank(state)
  {
  }

  /** Eating a second enemy of the same kind changes nothing more. */
  lemma CollectIdempotent(state: State, power: Enemies)
    ensures Evolve(Evolve(state, power), power) == Evolve(state, power)
  {
  }

  /** The final tier is reached by a bird and only kept, never reached, otherwise. */
  lemma DiamondOnlyByBird(state: State, power: Enemies)
    ensures Evolve(state, power) == DiamondSnake
            <==> power == Bird || (power == Frog && state == DiamondSnake)
  {
  }

  /** The player entity, whose tier `collect` updates in place. */
  class Snake {
    var state: State

    /** `Snake::new`: every game starts at the base tier. */
    constructor ()
      ensures state == State.Snake
    {
      state := State.Snake;
    }

    /** `Snake::collect`: the tier after eating `power`. */
    method Collect(power: Enemies)
      modifies this
      ensures state == Evolve(old(state), power)
    {
      state := Evolve(state, power);
    }
  }
}
