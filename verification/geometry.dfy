/** Collision geometry: the hit boxes of the enemy and of the player, in
    pixels, and the axis-aligned overlap test between them. */
module Geometry {
  import opened Setup

  /** An axis-aligned box in pixel coordinates; y grows downwards. */
  datatype Box = Box(left: real, top: real, right: real, bottom: real)

  function Width(b: Box): real { b.right - b.left }

  function Height(b: Box): real { b.bottom - b.top }

  predicate NonEmpty(b: Box) { b.left < b.right && b.top < b.bottom }

  predicate Contains(b: Box, px: real, py: real) {
    b.left <= px <= b.right && b.top <= py <= b.bottom
  }

  predicate Inside(inner: Box, outer: Box) {
    outer.left <= inner.left && inner.right <= outer.right &&
    outer.top <= inner.top && inner.bottom <= outer.bottom
  }

  /** The rectangle covered by a sprite image of size w by h drawn at (px, py). */
  function SpriteRect(px: real, py: real, w: int, h: int): Box {
    Box(px, py, px + w as real, py + h as real)
  }

  /** Vertical pixel position of an enemy travelling on the given lane. */
  function LaneY(lane: int): real {
    (lane * TileStepY - 20) as real
  }

  /** Pixel position at which the player's sprite is drawn for grid cell (gx, gy). */
  function TileX(gx: int): int { gx * TileStepX }

  function TileY(gy: int): int { gy * TileStepY + TileYOffset }

  /** The enemy's hit box: the full sprite width, trimmed at the top and bottom
      to the visible bug. */
  function EnemyBounds(x: real, y: real): (b: Box)
    ensures NonEmpty(b) && Width(b) == 101.0 && Height(b) == 76.0
    ensures Inside(b, SpriteRect(x, y, BugWidth, BugHeight))
  {
    Box(x, y + 70.0, x + BugWidth as real, y + BugHeight as real - 25.0)
  }

  /** The player's hit box for grid cell (gx, gy): tile coordinates turned into
      pixels, then trimmed on all four sides to the visible character. */
  function PlayerBounds(gx: int, gy: int): (b: Box)
    ensures NonEmpty(b) && Width(b) == 46.0 && Height(b) == 46.0
    ensures Inside(b, SpriteRect(TileX(gx) as real, TileY(gy) as real, PlayerWidth, PlayerHeight))
  {
    Box((gx * TileStepX + 30) as real,
        (gy * TileStepY + TileYOffset + 90) as real,
        (gx * TileStepX + 25 + PlayerWidth - 50) as real,
        (gy * TileStepY + TileYOffset + PlayerHeight - 35) as real)
  }

  /** The overlap test of Enemy.collidedWith, with a the player's box and b the
      enemy's; boxes that only touch count as overlapping. */
  predicate Overlaps(a: Box, b: Box) {
    a.left <= b.right && b.left <= a.right &&
    a.top <= b.bottom && b.top <= a.bottom
  }

  /** Two non-empty boxes overlap exactly when some point lies in both. */
  lemma OverlapsIffCommonPoint(a: Box, b: Box)
    requires NonEmpty(a) && NonEmpty(b)
    ensures Overlaps(a, b) <==> exists px, py :: Contains(a, px, py) && Contains(b, px, py)
  {
    if Overlaps(a, b) {
      var px := if a.left <= b.left then b.left else a.left;
      var py := if a.top <= b.top then b.top else a.top;
      assert Contains(a, px, py) && Contains(b, px, py);
    }
  }

  lemma OverlapsSymmetric(a: Box, b: Box)
    ensures Overlaps(a, b) <==> Overlaps(b, a)
  {
  }

  lemma OverlapsReflexive(b: Box)
    requires NonEmpty(b)
    ensures Overlaps(b, b)
  {
  }

  /** Boxes strictly apart on either axis do not overlap. */
  lemma SeparatedDoNotOverlap(a: Box, b: Box)
    requires a.right < b.left || b.right < a.left || a.bottom < b.top || b.bottom < a.top
    ensures !Overlaps(a, b)
  {
  }

  /** An enemy on a lane can only hit a player standing in the grid row of that
      lane, and does so exactly while its x lies within a 147-pixel window
      around the player's column. */
  lemma CollisionOnlyInOwnLane(ex: real, lane: int, gx: int, gy: int)
    ensures Overlaps(PlayerBounds(gx, gy), EnemyBounds(ex, LaneY(lane))) <==>
            gy == lane && (TileX(gx) - 71) as real <= ex <= (TileX(gx) + 76) as real
  {
  }
}
