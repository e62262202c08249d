/** The player's state machine as values: each operation of the player maps
    the state before it to the state after it. The Player class in module
    Entities updates its fields in place and is proved to agree with these
    functions. */
module PlayerLogic {
  import opened Setup

  /** Grid cell (x, y), moves queued by key presses, and the score. */
  datatype PlayerState = PlayerState(x: int, y: int, moveX: int, moveY: int, score: int)

  /** The state the player is created in. */
  const Start: PlayerState := PlayerState(PlayerInitialX, PlayerInitialY, 0, 0, 0)

  /** On the grid but not in the water, with a non-negative score. Queued moves
      are unconstrained: any number of key presses may come before an update. */
  predicate Valid(s: PlayerState) {
    0 <= s.x <= PlayerMaxX && 1 <= s.y <= PlayerMaxY && s.score >= 0
  }

  /** Back at the starting cell with nothing queued. */
  predicate AtStart(s: PlayerState) {
    s.x == PlayerInitialX && s.y == PlayerInitialY && s.moveX == 0 && s.moveY == 0
  }

  function Dist(a: int, b: int): nat {
    if a <= b then b - a else a - b
  }

  /** v pushed into [lo, hi]: the value of the range nearest to v. */
  function Clamp(v: int, lo: int, hi: int): (r: int)
    requires lo <= hi
    ensures lo <= r <= hi
    ensures forall c :: lo <= c <= hi ==> Dist(r, v) <= Dist(c, v)
  {
    if v < lo then lo else if v > hi then hi else v
  }

  /** Player.reset: back to the starting cell, score kept. */
  function Reset(s: PlayerState): (r: PlayerState)
    ensures AtStart(r) && r.score == s.score
  {
    s.(x := PlayerInitialX, y := PlayerInitialY, moveX := 0, moveY := 0)
  }

  /** Player.updateScore: the score moves by delta but never below zero;
      nothing else changes. */
  function UpdateScore(s: PlayerState, delta: int): (r: PlayerState)
    ensures r.score >= 0
    ensures r.score == s.score + delta || (s.score + delta < 0 && r.score == 0)
    ensures r.(score := s.score) == s
  {
    var score := s.score + delta;
    s.(score := if score < 0 then 0 else score)
  }

  /** Player.resetScore: the score goes back to zero, whatever it was. */
  function ResetScore(s: PlayerState): (r: PlayerState)
    ensures r == s.(score := 0)
  {
    UpdateScore(s, -s.score)
  }

  /** Player.handleCollision: back to the start, one point lost unless the
      score is already zero. */
  function HandleCollision(s: PlayerState): (r: PlayerState)
    ensures AtStart(r) && r.score >= 0
    ensures r.score == s.score - 1 || (s.score < 1 && r.score == 0)
  {
    UpdateScore(Reset(s), ScorePlayerCaught)
  }

  /** Player.win: back to the start with two more points. */
  function Win(s: PlayerState): (r: PlayerState)
    ensures AtStart(r) && r.score >= 0
    ensures r.score == s.score + 2 || (s.score + 2 < 0 && r.score == 0)
  {
    UpdateScore(Reset(s), ScoreGoalReached)
  }

  /** The queued vertical move takes the player to row 0 or beyond: the water. */
  predicate ReachesWater(s: PlayerState) {
    s.y + s.moveY <= 0
  }

  /** Player.update: apply the queued moves, keep the player on the grid, and
      turn reaching the water into a win. Whatever happened, the queue is empty
      afterwards and the player is never left in the water row. */
  function Update(s: PlayerState): (r: PlayerState)
    ensures 0 <= r.x <= PlayerMaxX && 1 <= r.y <= PlayerMaxY
    ensures r.moveX == 0 && r.moveY == 0
    ensures ReachesWater(s) ==> r == Win(s)
    ensures !ReachesWater(s) ==>
              r.score == s.score &&
              r.x == Clamp(s.x + s.moveX, 0, PlayerMaxX) &&
              r.y == Clamp(s.y + s.moveY, 0, PlayerMaxY)
  {
    var moved := s.(x := Clamp(s.x + s.moveX, 0, PlayerMaxX),
                    y := Clamp(s.y + s.moveY, 0, PlayerMaxY));
    var after := if moved.y == 0 then Win(moved) else moved;
    after.(moveX := 0, moveY := 0)
  }

  /** The unit step a key queues along each axis. */
  function KeyStepX(input: string): int {
    if input == "left" then -1 else if input == "right" then 1 else 0
  }

  function KeyStepY(input: string): int {
    if input == "up" then -1 else if input == "down" then 1 else 0
  }

  /** Player.handleInput: queue the key's unit step; the position and the score
      are untouched and any other input changes nothing. */
  function HandleInput(s: PlayerState, input: string): (r: PlayerState)
    ensures r == s.(moveX := s.moveX + KeyStepX(input), moveY := s.moveY + KeyStepY(input))
  {
    if input == "up" then s.(moveY := s.moveY - 1)
    else if input == "down" then s.(moveY := s.moveY + 1)
    else if input == "left" then s.(moveX := s.moveX - 1)
    else if input == "right" then s.(moveX := s.moveX + 1)
    else s
  }

  /** The same key pressed n times in a row. */
  function PressRepeatedly(s: PlayerState, input: string, n: nat): PlayerState
    decreases n
  {
    if n == 0 then s else PressRepeatedly(HandleInput(s, input), input, n - 1)
  }

  /** Key presses accumulate without bound before an update consumes them. */
  lemma {:induction false} PressesAccumulate(s: PlayerState, input: string, n: nat)
    ensures PressRepeatedly(s, input, n) ==
            s.(moveX := s.moveX + n * KeyStepX(input), moveY := s.moveY + n * KeyStepY(input))
    decreases n
  {
    if n > 0 {
      PressesAccumulate(HandleInput(s, input), input, n - 1);
      assert n * KeyStepX(input) == KeyStepX(input) + (n - 1) * KeyStepX(input);
      assert n * KeyStepY(input) == KeyStepY(input) + (n - 1) * KeyStepY(input);
    }
  }

  /** One key and one update from a state with nothing queued: either the
      player won, or it stands on a neighbouring cell (or the same cell, at
      the edge of the grid) with its score unchanged. */
  lemma OneKeyMovesAtMostOneCell(s: PlayerState, input: string)
    requires Valid(s) && s.moveX == 0 && s.moveY == 0
    ensures var r := Update(HandleInput(s, input));
            if input == "up" && s.y == 1 then AtStart(r) && r.score == s.score + ScoreGoalReached
            else r.score == s.score && Dist(r.x, s.x) + Dist(r.y, s.y) <= 1
  {
  }

  /** The calls the rest of the game makes on the player. */
  datatype Event = KeyUp(input: string) | Tick | Caught | ScoreReset | PositionReset

  function Step(s: PlayerState, e: Event): PlayerState {
    match e
    case KeyUp(input) => HandleInput(s, input)
    case Tick => Update(s)
    case Caught => HandleCollision(s)
    case ScoreReset => ResetScore(s)
    case PositionReset => Reset(s)
  }

  function Run(s: PlayerState, events: seq<Event>): PlayerState
    decreases |events|
  {
    if events == [] then s else Run(Step(s, events[0]), events[1..])
  }

  lemma StepKeepsValid(s: PlayerState, e: Event)
    requires Valid(s)
    ensures Valid(Step(s, e))
  {
  }

  /** Whatever the history of calls, the player stays on the grid outside the
      water and the score stays non-negative. */
  lemma {:induction false} RunKeepsValid(s: PlayerState, events: seq<Event>)
    requires Valid(s)
    ensures Valid(Run(s, events))
    decreases |events|
  {
    if events != [] {
      StepKeepsValid(s, events[0]);
      RunKeepsValid(Step(s, events[0]), events[1..]);
    }
  }

  /** From the start, "up" and an update reach row 4; five such rounds reach
      the water, which scores 2 and puts the player back at the start. */
  lemma CrossingScenario()
    ensures Run(Start, [KeyUp("up"), Tick]) == PlayerState(2, 4, 0, 0, 0)
    ensures Run(Start, [KeyUp("up"), Tick, KeyUp("up"), Tick, KeyUp("up"), Tick,
                        KeyUp("up"), Tick, KeyUp("up"), Tick]) == PlayerState(2, 5, 0, 0, 2)
  {
  }

  /** Being caught with a score of zero keeps it at zero. */
  lemma CaughtAtZeroScore()
    ensures Run(Start, [Caught]) == Start
  {
  }
}
