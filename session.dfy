/** The game loop of `main`: one pass either spawns enemies into an empty
    area (or declares the win), or asks about each kind present and acts on
    the player's answers. Console lines and random draws are inputs. */
module Session {
  import opened Evolution
  import opened Habitat

  /** A console line after trimming: exactly "Y", exactly "N", or anything else. */
  datatype Answer = Y | N | Other

  /** Everything a pass reads and changes: the snake's tier, the area's biome
      and counters, and the `game_running` flag. */
  datatype Game = Game(state: State, biome: Biome, counts: Counters, running: bool)

  /** A game together with the console lines not yet read. */
  datatype Turn = Turn(game: Game, rest: seq<Answer>)

  /** The next console line. At end of input the read fails, the buffer stays
      empty, and an empty line is neither "Y" nor "N". */
  function Next(input: seq<Answer>): Answer {
    if |input| > 0 then input[0] else Other
  }

  /** The console after one line has been read. */
  function Drop(input: seq<Answer>): seq<Answer> {
    if |input| > 0 then input[1..] else []
  }

  /** The counters after `spawn_enemies` with the given draws. */
  function Spawned(biome: Biome, c: Counters, draws: seq<Enemies>): Counters {
    if biome == Biome.Swamp then AddAll(c, draws) else c
  }

  /** The tier after the player kills a `kind`, with the guards the prompts put
      around `collect`. */
  function Reward(state: State, kind: Enemies): State {
    match kind
    case Frog => if state == State.Snake then Evolve(state, Frog) else state
    case Lizard => if state != SilverSnake then Evolve(state, Lizard) else state
    case Mouse => Evolve(state, Mouse)
    case Bird => if state != DiamondSnake then Evolve(state, Bird) else state
  }

  /** The prompt for `kind`: asked only when one is present; "Y" kills it and
      rewards the snake, "N" sets `game_running` (to true for the lizard, to
      false for the others), anything else is ignored. */
  function Prompt(t: Turn, kind: Enemies): Turn {
    var g := t.game;
    if g.counts.Count(kind) == 0 then t
    else
      match Next(t.rest)
      case Y => Turn(g.(counts := Remove(g.counts, kind), state := Reward(g.state, kind)), Drop(t.rest))
      case N => Turn(g.(running := kind == Lizard), Drop(t.rest))
      case Other => Turn(g, Drop(t.rest))
  }

  /** True when the frog prompt is answered "Y" by a snake past the base tier:
      the frog dies and the rest of the pass is skipped by `continue`. */
  predicate FrogSkips(g: Game, input: seq<Answer>) {
    g.counts.frogs > 0 && Next(input) == Y && g.state != State.Snake
  }

  /** One pass of the `while game_running` loop, given the draws a spawn would
      use. A population of zero is an area with no enemy of any kind
      (`EmptyIffNoPopulation`). */
  function Step(g: Game, input: seq<Answer>, draws: seq<Enemies>): Turn {
    if g.counts == NoEnemies then
      if g.state != DiamondSnake then Turn(g.(counts := Spawned(g.biome, g.counts, draws)), input)
      else Turn(g.(running := false), input)
    else
      var afterFrog := Prompt(Turn(g, input), Frog);
      if FrogSkips(g, input) then afterFrog
      else Prompt(Prompt(Prompt(afterFrog, Lizard), Mouse), Bird)
  }

  /** The loop run for at most |rolls| passes, pass i spawning from rolls[i]. */
  function Run(g: Game, input: seq<Answer>, rolls: seq<seq<Enemies>>): Turn
    decreases |rolls|
  {
    if !g.running || rolls == [] then Turn(g, input)
    else
      var t := Step(g, input, rolls[0]);
      Run(t.game, t.rest, rolls[1..])
  }

  /** The game as `main` sets it up: a base snake in an empty swamp. */
  function Initial(): Game {
    Game(State.Snake, Biome.Swamp, NoEnemies, true)
  }

  // ---------------------------------------------------------------------------
  // Properties of one prompt

  /** Every guarded `collect` in the prompts has the effect of an unguarded one. */
  lemma RewardIsCollect(state: State, kind: Enemies)
    ensures Reward(state, kind) == Evolve(state, kind)
  {
  }

  /** "Y" on a present kind kills exactly one of it and evolves the snake by it. */
  lemma PromptYes(t: Turn, kind: Enemies)
    requires t.game.counts.Count(kind) > 0 && Next(t.rest) == Y
    ensures Prompt(t, kind).game.counts == Remove(t.game.counts, kind)
    ensures Prompt(t, kind).game.state == Evolve(t.game.state, kind)
    ensures Prompt(t, kind).game.running == t.game.running
    ensures Prompt(t, kind).rest == Drop(t.rest)
  {
    RewardIsCollect(t.game.state, kind);
  }

  /** "N" ends the game for a frog, mouse or bird, but keeps it going for a lizard. */
  lemma PromptNo(t: Turn, kind: Enemies)
    requires t.game.counts.Count(kind) > 0 && Next(t.rest) == N
    ensures Prompt(t, kind).game.running <==> kind == Lizard
    ensures Prompt(t, kind).game.counts == t.game.counts
    ensures Prompt(t, kind).game.state == t.game.state
    ensures Prompt(t, kind).rest == Drop(t.rest)
  {
  }

  /** Any other line, end of input included, is read and changes nothing. */
  lemma PromptOther(t: Turn, kind: Enemies)
    requires t.game.counts.Count(kind) > 0 && Next(t.rest) == Other
    ensures Prompt(t, kind) == Turn(t.game, Drop(t.rest))
  {
  }

  /** An absent kind is not asked about: no line is read. */
  lemma PromptAbsent(t: Turn, kind: Enemies)
    requires t.game.counts.Count(kind) == 0
    ensures Prompt(t, kind) == t
  {
  }

  /** A prompt kills at most one enemy, only of its own kind, and never
      drives a counter below zero; the biome never changes. */
  lemma PromptKillsAtMostOne(t: Turn, kind: Enemies)
    ensures Prompt(t, kind).game.biome == t.game.biome
    ensures Prompt(t, kind).game.counts == t.game.counts
            || (t.game.counts.Count(kind) > 0
                && Prompt(t, kind).game.counts == Remove(t.game.counts, kind))
  {
  }

  // ---------------------------------------------------------------------------
  // Properties of one pass

  /** With nobody left: a snake short of diamond gets a spawn and the game goes
      on; a diamond snake has won and the game stops with the area untouched.
      No line is read either way. */
  lemma IdlePass(g: Game, input: seq<Answer>, draws: seq<Enemies>)
    requires g.counts == NoEnemies
    ensures Step(g, input, draws).rest == input
    ensures Step(g, input, draws).game.state == g.state
    ensures g.state != DiamondSnake ==>
              Step(g, input, draws).game == g.(counts := Spawned(g.biome, g.counts, draws))
    ensures g.state == DiamondSnake ==> Step(g, input, draws).game == g.(running := false)
  {
  }

  /** A swamp spawn fills the empty area with one enemy per draw, so the
      next pass asks questions. */
  lemma IdleSwampSpawnsCapacity(g: Game, input: seq<Answer>, draws: seq<Enemies>, kind: Enemies)
    requires g.counts == NoEnemies && g.biome == Biome.Swamp && g.state != DiamondSnake
    ensures Step(g, input, draws).game.counts.Total() == |draws|
    ensures Step(g, input, draws).game.counts.Count(kind) == multiset(draws)[kind]
    ensures Step(g, input, draws).game.running == g.running
  {
    AddAllTotal(g.counts, draws);
    AddAllCount(g.counts, draws, kind);
  }

  /** "Y" to the frog from a snake past the base tier kills the frog and
      skips the other prompts: only one line is read, the tier and the other
      counters stay as they were, and `collect` is not called. */
  lemma FrogYesSkipsRest(g: Game, input: seq<Answer>, draws: seq<Enemies>)
    requires FrogSkips(g, input)
    ensures Step(g, input, draws) == Turn(g.(counts := Remove(g.counts, Frog)), Drop(input))
  {
  }

  /** "N" to the lizard undoes an "N" to the frog in the same pass. */
  lemma LizardNoRevives(g: Game, input: seq<Answer>, draws: seq<Enemies>)
    requires g.counts.frogs > 0 && g.counts.lizards > 0
    requires g.counts.mice == 0 && g.counts.birds == 0
    requires |input| >= 2 && input[0] == N && input[1] == N
    ensures Prompt(Turn(g, input), Frog).game.running == false
    ensures Step(g, input, draws).game.running
  {
    assert Drop(input)[0] == N;
  }

  /** With every kind present and no frog skip, the pass reads four lines and
      the flag is set by the last "N" among them: false unless that "N" was
      the lizard's; with no "N" the game goes on. */
  lemma FullPassRunning(g: Game, input: seq<Answer>, draws: seq<Enemies>)
    requires g.running
    requires g.counts.frogs > 0 && g.counts.lizards > 0 && g.counts.mice > 0 && g.counts.birds > 0
    requires |input| >= 4 && !FrogSkips(g, input)
    ensures Step(g, input, draws).rest == input[4..]
    ensures Step(g, input, draws).game.running
            == if input[3] == N then false
               else if input[2] == N then false
               else if input[1] == N then true
               else if input[0] == N then false
               else true
  {
    assert Drop(input) == input[1..];
    assert Drop(input[1..]) == input[2..];
    assert Drop(input[2..]) == input[3..];
    assert Drop(input[3..]) == input[4..];
  }

  /** No line left on the console is "N". */
  predicate NoRefusal(input: seq<Answer>) {
    forall i :: 0 <= i < |input| ==> input[i] != N
  }

  /** Every line left on the console is neither "Y" nor "N". */
  predicate AllIgnored(input: seq<Answer>) {
    forall i :: 0 <= i < |input| ==> input[i] == Other
  }

  /** A prompt answered with anything but "N" leaves a running game running. */
  lemma PromptKeepsRunning(t: Turn, kind: Enemies)
    requires t.game.running && NoRefusal(t.rest)
    ensures Prompt(t, kind).game.running && NoRefusal(Prompt(t, kind).rest)
  {
  }

  /** A prompt answered with an ignored line leaves the game as it was. */
  lemma PromptIgnored(t: Turn, kind: Enemies)
    requires AllIgnored(t.rest)
    ensures Prompt(t, kind).game == t.game && AllIgnored(Prompt(t, kind).rest)
  {
  }

  /** A prompt kills at most one enemy, only of its own kind. */
  lemma PromptCounts(t: Turn, kind: Enemies)
    ensures forall j :: j != kind ==> Prompt(t, kind).game.counts.Count(j) == t.game.counts.Count(j)
    ensures Prompt(t, kind).game.counts.Count(kind) <= t.game.counts.Count(kind)
            <= Prompt(t, kind).game.counts.Count(kind) + 1
    ensures Prompt(t, kind).game.counts.Total() <= t.game.counts.Total()
    ensures Prompt(t, kind).game.biome == t.game.biome
  {
  }

  /** A pass in which no line read is "N" keeps the game running, unless it
      is the diamond snake's victory pass. */
  lemma NoRefusalKeepsRunning(g: Game, input: seq<Answer>, draws: seq<Enemies>)
    requires g.running && NoRefusal(input)
    requires g.counts != NoEnemies || g.state != DiamondSnake
    ensures Step(g, input, draws).game.running
    ensures NoRefusal(Step(g, input, draws).rest)
  {
    if g.counts != NoEnemies {
      var t0 := Turn(g, input);
      var t1 := Prompt(t0, Frog);
      var t2 := Prompt(t1, Lizard);
      var t3 := Prompt(t2, Mouse);
      PromptKeepsRunning(t0, Frog);
      PromptKeepsRunning(t1, Lizard);
      PromptKeepsRunning(t2, Mouse);
      PromptKeepsRunning(t3, Bird);
    }
  }

  /** When every line read is neither "Y" nor "N" (end of input included), a
      pass with enemies present changes nothing. */
  lemma IgnoredPassChangesNothing(g: Game, input: seq<Answer>, draws: seq<Enemies>)
    requires g.counts != NoEnemies && AllIgnored(input)
    ensures Step(g, input, draws).game == g
    ensures AllIgnored(Step(g, input, draws).rest)
  {
    var t0 := Turn(g, input);
    var t1 := Prompt(t0, Frog);
    var t2 := Prompt(t1, Lizard);
    var t3 := Prompt(t2, Mouse);
    PromptIgnored(t0, Frog);
    PromptIgnored(t1, Lizard);
    PromptIgnored(t2, Mouse);
    PromptIgnored(t3, Bird);
  }

  /** The kills of a pass are guarded by the counters: each counter drops by
      at most one and none goes negative, so the population never grows
      except by a spawn into an empty area. */
  lemma PassPopulation(g: Game, input: seq<Answer>, draws: seq<Enemies>)
    ensures g.counts != NoEnemies ==>
              forall kind :: Step(g, input, draws).game.counts.Count(kind) <= g.counts.Count(kind)
                             <= Step(g, input, draws).game.counts.Count(kind) + 1
    ensures Step(g, input, draws).game.counts.Total()
            <= if g.counts == NoEnemies then |draws| else g.counts.Total()
    ensures Step(g, input, draws).game.biome == g.biome
  {
    if g.counts == NoEnemies {
      if g.state != DiamondSnake && g.biome == Biome.Swamp {
        AddAllTotal(g.counts, draws);
      }
    } else {
      var t0 := Turn(g, input);
      var t1 := Prompt(t0, Frog);
      var t2 := Prompt(t1, Lizard);
      var t3 := Prompt(t2, Mouse);
      var t4 := Prompt(t3, Bird);
      PromptCounts(t0, Frog);
      PromptCounts(t1, Lizard);
      PromptCounts(t2, Mouse);
      PromptCounts(t3, Bird);
      var after := Step(g, input, draws);
      assert after == if FrogSkips(g, input) then t1 else t4;
      forall kind
        ensures after.game.counts.Count(kind) <= g.counts.Count(kind) <= after.game.counts.Count(kind) + 1
      {
      }
    }
  }

  // ---------------------------------------------------------------------------
  // Properties of the whole loop

  /** A running game with passes left takes one step and carries on. */
  lemma RunUnroll(g: Game, input: seq<Answer>, rolls: seq<seq<Enemies>>)
    requires g.running && rolls != []
    ensures Run(g, input, rolls)
            == Run(Step(g, input, rolls[0]).game, Step(g, input, rolls[0]).rest, rolls[1..])
  {
  }

  /** No pass ever leaves more enemies than the largest batch of draws, so a
      game started in an empty swamp never holds more than 5 enemies and the
      32-bit counters cannot overflow. */
  lemma {:induction false} RunBounded(g: Game, input: seq<Answer>, rolls: seq<seq<Enemies>>, cap: nat)
    requires g.counts.Total() <= cap
    requires forall i :: 0 <= i < |rolls| ==> |rolls[i]| <= cap
    ensures Run(g, input, rolls).game.counts.Total() <= cap
    ensures Run(g, input, rolls).game.biome == g.biome
    decreases |rolls|
  {
    if g.running && rolls != [] {
      var t := Step(g, input, rolls[0]);
      PassPopulation(g, input, rolls[0]);
      assert forall i :: 0 <= i < |rolls[1..]| ==> rolls[1..][i] == rolls[i + 1];
      RunBounded(t.game, t.rest, rolls[1..], cap);
    }
  }

  /** Once the console is at end of input while enemies are present, every
      further pass reads nothing useful and changes nothing: the loop can
      never stop. */
  lemma {:induction false} EndOfInputStalls(g: Game, rolls: seq<seq<Enemies>>)
    requires g.running && g.counts != NoEnemies
    ensures Run(g, [], rolls) == Turn(g, [])
    decreases |rolls|
  {
    if rolls != [] {
      IgnoredPassChangesNothing(g, [], rolls[0]);
      EndOfInputStalls(g, rolls[1..]);
    }
  }

  /** Only a refusal or a win ends the game: when no line on the console is
      "N", a running loop that stops has stopped on the diamond snake's
      winning pass, in an empty area. */
  lemma {:induction false} RunStopsOnlyByWin(g: Game, input: seq<Answer>, rolls: seq<seq<Enemies>>)
    requires g.running && NoRefusal(input)
    ensures !Run(g, input, rolls).game.running ==>
              Run(g, input, rolls).game.state == DiamondSnake
              && Run(g, input, rolls).game.counts == NoEnemies
    decreases |rolls|
  {
    if rolls != [] {
      var t := Step(g, input, rolls[0]);
      if g.counts == NoEnemies && g.state == DiamondSnake {
        assert t.game == g.(running := false);
      } else {
        NoRefusalKeepsRunning(g, input, rolls[0]);
        RunStopsOnlyByWin(t.game, t.rest, rolls[1..]);
      }
    }
  }

  /** A diamond snake in an empty area wins on the next pass: the loop stops
      at once, whatever the input. */
  lemma DiamondWins(g: Game, input: seq<Answer>, rolls: seq<seq<Enemies>>)
    requires g.running && g.state == DiamondSnake && g.counts == NoEnemies && rolls != []
    ensures Run(g, input, rolls) == Turn(g.(running := false), input)
  {
  }

  // ---------------------------------------------------------------------------
  // The loop as the source runs it, on the snake and area objects

  /** The game the objects and the flag currently make up. */
  function GameOf(snake: Snake, area: Location, running: bool): Game
    reads snake, area
  {
    Game(snake.state, area.biome, area.Counts(), running)
  }

  /** The frog prompt. `skip` reports the `continue` taken when a snake past
      the base tier kills the frog. */
  method FrogPrompt(snake: Snake, area: Location, running: bool, input: seq<Answer>)
      returns (running': bool, rest: seq<Answer>, skip: bool)
    requires area.Valid()
    modifies snake, area
    ensures area.Valid()
    ensures skip == FrogSkips(old(GameOf(snake, area, running)), input)
    ensures Turn(GameOf(snake, area, running'), rest)
            == Prompt(Turn(old(GameOf(snake, area, running)), input), Frog)
  {
    running', rest, skip := running, input, false;
    if area.frogs > 0 {
      var answer := Next(rest);
      rest := Drop(rest);
      match answer {
        case Y =>
          area.KillEnemy(Frog);
          if snake.state == State.Snake {
            snake.Collect(Frog);
          } else {
            skip := true;
          }
        case N =>
          running' := false;
        case Other =>
      }
    }
  }

  /** The lizard prompt: a refusal sets the flag back to true. */
  method LizardPrompt(snake: Snake, area: Location, running: bool, input: seq<Answer>)
      returns (running': bool, rest: seq<Answer>)
    requires area.Valid()
    modifies snake, area
    ensures area.Valid()
    ensures Turn(GameOf(snake, area, running'), rest)
            == Prompt(Turn(old(GameOf(snake, area, running)), input), Lizard)
  {
    running', rest := running, input;
    if area.lizards > 0 {
      var answer := Next(rest);
      rest := Drop(rest);
      match answer {
        case Y =>
          area.KillEnemy(Lizard);
          if snake.state != SilverSnake {
            snake.Collect(Lizard);
          }
        case N =>
          running' := true;
        case Other =>
      }
    }
  }

  /** The mouse prompt. */
  method MousePrompt(snake: Snake, area: Location, running: bool, input: seq<Answer>)
      returns (running': bool, rest: seq<Answer>)
    requires area.Valid()
    modifies snake, area
    ensures area.Valid()
    ensures Turn(GameOf(snake, area, running'), rest)
            == Prompt(Turn(old(GameOf(snake, area, running)), input), Mouse)
  {
    running', rest := running, input;
    if area.mice > 0 {
      var answer := Next(rest);
      rest := Drop(rest);
      match answer {
        case Y =>
          area.KillEnemy(Mouse);
          snake.Collect(Mouse);
        case N =>
          running' := false;
        case Other =>
      }
    }
  }

  /** The bird prompt. */
  method BirdPrompt(snake: Snake, area: Location, running: bool, input: seq<Answer>)
      returns (running': bool, rest: seq<Answer>)
    requires area.Valid()
    modifies snake, area
    ensures area.Valid()
    ensures Turn(GameOf(snake, area, running'), rest)
            == Prompt(Turn(old(GameOf(snake, area, running)), input), Bird)
  {
    running', rest := running, input;
    if area.birds > 0 {
      var answer := Next(rest);
      rest := Drop(rest);
      match answer {
        case Y =>
          area.KillEnemy(Bird);
          if snake.state != DiamondSnake {
            snake.Collect(Bird);
          }
        case N =>
          running' := false;
        case Other =>
      }
    }
  }

  /** One pass of the loop body on the snake and the area, the flag starting
      true as it does whenever the body runs. */
  method Pass(snake: Snake, area: Location, input: seq<Answer>, draws: seq<Enemies>)
      returns (running: bool, rest: seq<Answer>)
    requires area.Valid()
    requires area.biome == Biome.Swamp ==> area.Drawable(draws)
    modifies snake, area
    ensures area.Valid()
    ensures Turn(GameOf(snake, area, running), rest) == Step(old(GameOf(snake, area, true)), input, draws)
  {
    running, rest := true, input;
    if area.population == 0 {
      if snake.state != DiamondSnake {
        area.SpawnEnemies(draws);
      } else if snake.state == DiamondSnake {
        running := false;
      }
    } else {
      var skip;
      running, rest, skip := FrogPrompt(snake, area, running, rest);
      if !skip {
        running, rest := LizardPrompt(snake, area, running, rest);
        running, rest := MousePrompt(snake, area, running, rest);
        running, rest := BirdPrompt(snake, area, running, rest);
      }
    }
  }

  /** The `while game_running` loop on a swamp, for at most |rolls| passes. */
  method Loop(snake: Snake, area: Location, input: seq<Answer>, rolls: seq<seq<Enemies>>)
      returns (final: Turn)
    requires area.Valid() && area.biome == Biome.Swamp && area.capacity == 5
    requires forall kind :: area.Chance(kind) > 0.0
    requires forall i :: 0 <= i < |rolls| ==> |rolls[i]| == 5
    requires area.population <= 5
    modifies snake, area
    ensures final == Run(old(GameOf(snake, area, true)), input, rolls)
    ensures area.Valid() && final.game == GameOf(snake, area, final.game.running)
    ensures final.game.counts.Total() <= 5 && final.game.biome == Biome.Swamp
  {
    var gameRunning := true;
    var rest := input;
    var i := 0;
    assert rolls[0..] == rolls;
    while gameRunning && i < |rolls|
      invariant 0 <= i <= |rolls|
      invariant area.Valid()
      invariant Run(old(GameOf(snake, area, true)), input, rolls)
                == Run(GameOf(snake, area, gameRunning), rest, rolls[i..])
    {
      ghost var before, input' := GameOf(snake, area, gameRunning), rest;
      gameRunning, rest := Pass(snake, area, rest, rolls[i]);
      RunUnroll(before, input', rolls[i..]);
      assert rolls[i..][1..] == rolls[i + 1..];
      i := i + 1;
    }
    final := Turn(GameOf(snake, area, gameRunning), rest);
    RunBounded(old(GameOf(snake, area, true)), input, rolls, 5);
  }

  /** `main`: a base snake in a fresh swamp, passes run while the game is on,
      for at most |rolls| passes, each spawning (if it does) from its own
      batch of five draws. */
  method Play(input: seq<Answer>, rolls: seq<seq<Enemies>>) returns (final: Turn)
    requires forall i :: 0 <= i < |rolls| ==> |rolls[i]| == 5
    ensures final == Run(Initial(), input, rolls)
    ensures final.game.counts.Total() <= 5
    ensures final.game.biome == Biome.Swamp
  {
    var snakePlayer := new Snake();
    var area := new Location.Swamp();
    assert GameOf(snakePlayer, area, true) == Initial();
    final := Loop(snakePlayer, area, input, rolls);
  }
}
