/** The game's two kinds of entity as objects whose fields the game updates in
    place: enemies (bugs) running along lanes, and the player. */
module Entities {
  import opened Setup
  import opened Geometry
  import PlayerLogic

  /** The speed given to an enemy by a uniform random draw r in [0, 1). */
  function SpeedFor(r: real): (speed: real)
    requires 0.0 <= r < 1.0
    ensures BugMinSpeed as real <= speed < (BugMinSpeed + BugVariableSpeed) as real
  {
    BugMinSpeed as real + r * BugVariableSpeed as real
  }

  class Enemy {
    var x: real
    var y: real
    var speed: real
    /** The lane the enemy was created on; the JavaScript `Enemy` keeps only the y it implies. */
    ghost const lane: int

    /** The enemy keeps to its lane and its speed is one a reset can give. */
    ghost predicate Valid()
      reads this
    {
      y == LaneY(lane) && BugMinSpeed as real <= speed < (BugMinSpeed + BugVariableSpeed) as real
    }

    /** Enemy(lane): placed off screen on its lane, then reset with draw r. */
    constructor (lane: int, r: real)
      requires 0.0 <= r < 1.0
      ensures Valid() && this.lane == lane
      ensures x == BugStartPosition as real && speed == SpeedFor(r)
    {
      this.lane := lane;
      x := BugStartPosition as real;
      y := LaneY(lane);
      new;
      Reset(r);
    }

    /** Enemy.reset: back to the off-screen start with a fresh speed; the lane
        is kept. */
    method Reset(r: real)
      requires 0.0 <= r < 1.0
      modifies this`x, this`speed
      ensures x == BugStartPosition as real && speed == SpeedFor(r)
      ensures old(Valid()) ==> Valid()
    {
      x := BugStartPosition as real;
      speed := SpeedFor(r);
    }

    /** Enemy.collidedWith: the player's hit box overlaps this enemy's. On its
        lane, that means the player stands in the lane's row and the enemy is
        level with the player's column. */
    predicate CollidedWith(p: Player)
      reads this, p
      ensures Valid() ==>
                (CollidedWith(p) <==>
                   p.y == lane && (TileX(p.x) - 71) as real <= x <= (TileX(p.x) + 76) as real)
    {
      CollisionOnlyInOwnLane(x, lane, p.x, p.y);
      Overlaps(PlayerBounds(p.x, p.y), EnemyBounds(x, y))
    }
  }

  class Player {
    var x: int
    var y: int
    var moveX: int
    var moveY: int
    var score: int

    /** The fields as a value of the player's state machine. */
    function State(): PlayerLogic.PlayerState
      reads this
    {
      PlayerLogic.PlayerState(x, y, moveX, moveY, score)
    }

    ghost predicate Valid()
      reads this
    {
      PlayerLogic.Valid(State())
    }

    /** Player(): at the starting cell, nothing queued, score zero. */
    constructor ()
      ensures State() == PlayerLogic.Start && Valid()
    {
      x := PlayerInitialX;
      y := PlayerInitialY;
      moveX := 0;
      moveY := 0;
      score := 0;
    }

    method Reset()
      modifies this
      ensures State() == PlayerLogic.Reset(old(State()))
      ensures old(Valid()) ==> Valid()
    {
      x := PlayerInitialX;
      y := PlayerInitialY;
      moveX := 0;
      moveY := 0;
    }

    method ResetScore()
      modifies this
      ensures State() == PlayerLogic.ResetScore(old(State()))
      ensures score == 0
      ensures old(Valid()) ==> Valid()
    {
      UpdateScore(-score);
    }

    method HandleCollision()
      modifies this
      ensures State() == PlayerLogic.HandleCollision(old(State()))
      ensures old(Valid()) ==> Valid()
    {
      Reset();
      UpdateScore(ScorePlayerCaught);
    }

    /** Player.update: the position is clamped to the grid step by step, and
        reaching the water calls Win before the queue is cleared. */
    method Update()
      modifies this
      ensures State() == PlayerLogic.Update(old(State()))
      ensures 0 <= x <= PlayerMaxX && 1 <= y <= PlayerMaxY && moveX == 0 && moveY == 0
      ensures old(Valid()) ==> Valid()
    {
      x := x + moveX;
      y := y + moveY;
      if x < 0 {
        x := 0;
      }
      if x > PlayerMaxX {
        x := PlayerMaxX;
      }
      if y < 0 {
        y := 0;
      }
      if y > PlayerMaxY {
        y := PlayerMaxY;
      }
      if y == 0 {
        Win();
      }
      moveX := 0;
      moveY := 0;
    }

    method Win()
      modifies this
      ensures State() == PlayerLogic.Win(old(State()))
      ensures old(Valid()) ==> Valid()
    {
      Reset();
      UpdateScore(ScoreGoalReached);
    }

    /** Player.updateScore; showing the score on the page is not modelled. */
    method UpdateScore(delta: int)
      modifies this
      ensures State() == PlayerLogic.UpdateScore(old(State()), delta)
      ensures score >= 0
      ensures old(Valid()) ==> Valid()
    {
      score := score + delta;
      if score < 0 {
        score := 0;
      }
    }

    /** Player.handleInput; the click sound it plays is not modelled. */
    method HandleInput(input: string)
      modifies this
      ensures State() == PlayerLogic.HandleInput(old(State()), input)
      ensures old(Valid()) ==> Valid()
    {
      if input == "up" {
        moveY := moveY - 1;
      } else if input == "down" {
        moveY := moveY + 1;
      } else if input == "left" {
        moveX := moveX - 1;
      } else if input == "right" {
        moveX := moveX + 1;
      }
    }
  }
}
