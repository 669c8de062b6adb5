/** Block.java: a grid tile with a type tag; the moving poison variant slides back and forth. */
module Blocks {
  import opened Geometry
  import opened Constants

  /** Block.Type */
  datatype BlockType = Solid | Breakable | Goal | Slippery | Poison | PoisonMoving

  /** Horizontal position and velocity of a moving block. */
  datatype Motion = Motion(px: real, vx: real)

  function Abs(v: real): real { if v < 0.0 then -v else v }

  /** One tick of a moving block: integrate px by vx * dt; past the left bound, sit on it and head
      right; past the right bound (right edge beyond maxX), sit against it and head left. Only the
      sign of the velocity ever changes. When the range holds a tile, the block ends inside it. */
  function Oscillate(px: real, vx: real, dt: real, minX: real, maxX: real): (m: Motion)
    ensures Abs(m.vx) == Abs(vx)
    ensures minX + TILE as real <= maxX ==> minX <= m.px && m.px + TILE as real <= maxX
    ensures minX + TILE as real <= maxX && px + vx * dt < minX ==> m == Motion(minX, Abs(vx))
    ensures px + vx * dt + TILE as real > maxX ==> m == Motion(maxX - TILE as real, -Abs(vx))
    ensures minX <= px + vx * dt && px + vx * dt + TILE as real <= maxX ==> m == Motion(px + vx * dt, vx)
  {
    var p := px + vx * dt;
    var m := if p < minX then Motion(minX, Abs(vx)) else Motion(p, vx);
    if m.px + TILE as real > maxX then Motion(maxX - TILE as real, -Abs(vx)) else m
  }

  class Block {
    const gx: int
    const gy: int
    const kind: BlockType
    /** Only a PoisonMoving block moves; the fields below its flag never change after construction. */
    const moving: bool
    const py: real
    const minX: real
    const maxX: real
    var px: real
    var vx: real

    /** What construction establishes and update keeps: the row is the grid row, a still block sits
        on its grid cell at rest, and a moving block's range is centred on its grid cell and at least
        one tile wide. */
    ghost predicate Valid()
      reads this
    {
      && py == (gy * TILE) as real
      && (moving <==> kind == PoisonMoving)
      && (!moving ==> px == (gx * TILE) as real && vx == 0.0)
      && (moving ==> maxX - minX >= TILE as real && minX + maxX == 2.0 * (gx * TILE) as real)
    }

    /** new Block(gx, gy, type); purpleSpeed and purpleRangeTiles stand for the PURPLE_SPEED and
        PURPLE_RANGE_TILES constants the moving variant reads. */
    constructor(gx: int, gy: int, kind: BlockType, purpleSpeed: real, purpleRangeTiles: int)
      requires purpleRangeTiles >= 1
      ensures Valid()
      ensures this.gx == gx && this.gy == gy && this.kind == kind
      ensures px == (gx * TILE) as real && py == (gy * TILE) as real
      ensures moving == (kind == PoisonMoving)
      ensures moving ==> vx == purpleSpeed && maxX - minX == (purpleRangeTiles * TILE) as real
      ensures moving ==> px - minX == maxX - px
      ensures !moving ==> vx == 0.0 && minX == 0.0 && maxX == 0.0
    {
      this.gx := gx;
      this.gy := gy;
      this.kind := kind;
      var x0 := (gx * TILE) as real;
      px := x0;
      py := (gy * TILE) as real;
      if kind == PoisonMoving {
        moving := true;
        vx := purpleSpeed;
        var range := (purpleRangeTiles * TILE) as real;
        minX := x0 - range * 0.5;
        maxX := x0 + range * 0.5;
      } else {
        moving := false;
        vx := 0.0;
        minX := 0.0;
        maxX := 0.0;
      }
    }

    /** getBounds: the moving block's live box, otherwise its grid cell; for a valid block the two
        agree, so the box is always the tile at (px, py). */
    function Bounds(): (r: Rect)
      reads this
      ensures r.width == TILE as real && r.height == TILE as real
      ensures Valid() ==> r == Rect(px, py, TILE as real, TILE as real)
      ensures Valid() && !moving ==> r == Rect((gx * TILE) as real, (gy * TILE) as real, TILE as real, TILE as real)
    {
      if moving then Rect(px, py, TILE as real, TILE as real)
      else Rect((gx * TILE) as real, (gy * TILE) as real, TILE as real, TILE as real)
    }

    /** update(dt): a still block is left alone; a moving one advances by Oscillate, keeps its
        speed and stays inside its range. */
    method Update(dt: real)
      requires Valid()
      modifies this
      ensures Valid()
      ensures !moving ==> px == old(px) && vx == old(vx)
      ensures moving ==> Motion(px, vx) == Oscillate(old(px), old(vx), dt, minX, maxX)
      ensures Abs(vx) == Abs(old(vx))
      ensures moving ==> minX <= px && px + TILE as real <= maxX
    {
      if !moving {
        return;
      }
      px := px + vx * dt;
      if px < minX {
        px := minX;
        vx := Abs(vx);
      }
      if px + TILE as real > maxX {
        px := maxX - TILE as real;
        vx := -Abs(vx);
      }
    }
  }
}
