/** GameCharacter.java: the player's physical state and its dash switch. */
module Characters {
  import opened Geometry
  import opened Constants

  /** libGDX Vector2, as a value: the character owns its two vectors and only assigns their parts. */
  datatype Vec2 = Vec2(x: real, y: real)

  /** Math.signum(direction) == -1 ? -1 : 1: a negative request dashes left, anything else right. */
  function DashDirection(direction: int): (d: int)
    ensures d == -1 || d == 1
    ensures d == -1 <==> direction < 0
  {
    if direction < 0 then -1 else 1
  }

  class GameCharacter {
    var pos: Vec2
    var vel: Vec2
    const w: real
    const h: real
    var grounded: bool
    var jumpsLeft: int
    var dashing: bool
    var dashRemaining: real
    var dashDir: int

    /** What every operation here keeps: the box is 22 by 28, the jump budget stays within
        MAX_JUMPS, and the dash direction is a unit step. */
    ghost predicate Valid()
      reads this
    {
      && w == 22.0 && h == 28.0
      && 0 <= jumpsLeft <= MAX_JUMPS
      && (dashDir == -1 || dashDir == 1)
      && dashRemaining >= 0.0
    }

    /** new GameCharacter(x, y): placed at (x, y), at rest, airborne, with the full jump budget,
        not dashing, nothing left to dash and facing right. */
    constructor(x: real, y: real)
      ensures Valid()
      ensures pos == Vec2(x, y) && vel == Vec2(0.0, 0.0)
      ensures !grounded && jumpsLeft == MAX_JUMPS
      ensures !dashing && dashRemaining == 0.0 && dashDir == 1
    {
      pos := Vec2(x, y);
      vel := Vec2(0.0, 0.0);
      w := 22.0;
      h := 28.0;
      grounded := false;
      jumpsLeft := MAX_JUMPS;
      dashing := false;
      dashRemaining := 0.0;
      dashDir := 1;
    }

    /** getBounds: the box at the position, with the character's size. */
    function Bounds(): (r: Rect)
      reads this
      ensures r.x == pos.x && r.y == pos.y
      ensures Valid() ==> r.width == 22.0 && r.height == 28.0
    {
      Rect(pos.x, pos.y, w, h)
    }

    /** startDash(direction): dashing, facing the sign of the request, the full dash distance
        ahead and the horizontal velocity at dash speed that way; nothing else moves. */
    method StartDash(direction: int)
      requires Valid()
      modifies `dashing, `dashDir, `dashRemaining, `vel
      ensures Valid()
      ensures dashing
      ensures dashDir == DashDirection(direction)
      ensures dashRemaining == DASH_DISTANCE == 160.0
      ensures vel == Vec2(dashDir as real * DASH_SPEED, old(vel.y))
      ensures direction < 0 ==> vel.x == -900.0
      ensures direction >= 0 ==> vel.x == 900.0
      ensures Bounds() == old(Bounds())
    {
      dashing := true;
      dashDir := DashDirection(direction);
      dashRemaining := DASH_DISTANCE;
      vel := vel.(x := dashDir as real * DASH_SPEED);
    }

    /** stopDash: no longer dashing and horizontally at rest; the remaining distance, the
        direction and the vertical velocity are kept. */
    method StopDash()
      requires Valid()
      modifies `dashing, `vel
      ensures Valid()
      ensures !dashing
      ensures vel == Vec2(0.0, old(vel.y))
      ensures Bounds() == old(Bounds())
    {
      dashing := false;
      vel := vel.(x := 0.0);
    }
  }
}
