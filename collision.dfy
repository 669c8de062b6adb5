/** The collision step of GameWorld.update as specification functions over values, and the
    loops of its X pass, falling pass and resting pass as methods proved against them. */
module Collision {
  import opened Geometry
  import opened Scoring
  import opened Coins

  /** FLOOR_LEVEL: the backup floor line. */
  const FloorLevel: real := 0.0

  /** The player as GameWorld sees it: position, velocity, sprite size and the grounded flag. */
  datatype Body = Body(x: real, y: real, vx: real, vy: real, w: real, h: real, grounded: bool)

  /** Everything one update may change besides the solids: the player, the coin blocks,
      the counters and the coin-pop effects. */
  datatype Frame = Frame(player: Body, coins: seq<CoinBlock>, tally: Tally, pops: seq<CoinPop>)

  // ---------------------------------------------------------------- X pass

  /** Position and velocity along the axis being resolved. */
  datatype Axis = Axis(pos: real, vel: real)

  /** One solid of the X pass: an overlap snaps the player beside it (right edge on its left
      side while the velocity is still positive, left edge on its right side otherwise) and stops it. */
  function XStep(s: Axis, r: Rect, y: real, w: real, h: real): Axis
  {
    if Overlaps(Rect(s.pos, y, w, h), r) then
      Axis(if s.vel > 0.0 then r.x - w else r.x + r.width, 0.0)
    else s
  }

  /** The X pass after the first n solids, in list order. */
  function XScan(solids: seq<Rect>, n: nat, start: Axis, y: real, w: real, h: real): Axis
    requires n <= |solids|
  {
    if n == 0 then start else XStep(XScan(solids, n - 1, start, y, w, h), solids[n - 1], y, w, h)
  }

  /** The whole X pass; it only runs when the player moves horizontally. */
  function XPass(solids: seq<Rect>, x: real, y: real, w: real, h: real, vx: real): Axis
  {
    if vx != 0.0 then XScan(solids, |solids|, Axis(x, vx), y, w, h) else Axis(x, vx)
  }

  // ---------------------------------------------------------------- falling and resting passes

  /** Vertical position, vertical velocity and whether a solid was landed on in this pass. */
  datatype Landing = Landing(pos: real, vel: real, grounded: bool)

  /** One solid of the falling pass: an overlap puts the player on its top, stops it and grounds it. */
  function DownStep(s: Landing, r: Rect, x: real, w: real, h: real): Landing
  {
    if Overlaps(Rect(x, s.pos, w, h), r) then Landing(r.y + r.height, 0.0, true) else s
  }

  function DownScan(solids: seq<Rect>, n: nat, start: Landing, x: real, w: real, h: real): Landing
    requires n <= |solids|
  {
    if n == 0 then start else DownStep(DownScan(solids, n - 1, start, x, w, h), solids[n - 1], x, w, h)
  }

  /** One solid of the zero-velocity safety net: the same snap to the top, velocity left alone. */
  function SettleStep(s: Landing, r: Rect, x: real, w: real, h: real): Landing
  {
    if Overlaps(Rect(x, s.pos, w, h), r) then Landing(r.y + r.height, s.vel, true) else s
  }

  function SettleScan(solids: seq<Rect>, n: nat, start: Landing, x: real, w: real, h: real): Landing
    requires n <= |solids|
  {
    if n == 0 then start else SettleStep(SettleScan(solids, n - 1, start, x, w, h), solids[n - 1], x, w, h)
  }

  // ---------------------------------------------------------------- rising pass

  /** The rising pass changes the vertical state and, through coin blocks, the counters and effects. */
  datatype Bump = Bump(pos: real, vel: real, coins: seq<CoinBlock>, tally: Tally, pops: seq<CoinPop>)

  /** The head crossed the block's bottom edge this frame: top was at or below it, and is now at or above it. */
  predicate CrossedFromBelow(oldY: real, y: real, h: real, r: Rect)
  {
    oldY + h <= r.y && y + h >= r.y
  }

  /** One solid of the rising pass: an overlap puts the player's top under the solid and stops it;
      when the head crossed the solid's bottom this frame and the solid's coin block is still
      active, one coin is collected, a coin pop is spawned above the block and the block is spent. */
  function UpStep(s: Bump, solids: seq<Rect>, i: nat, x: real, oldY: real, w: real, h: real): Bump
    requires i < |solids|
  {
    var r := solids[i];
    if !Overlaps(Rect(x, s.pos, w, h), r) then s
    else
      var snapped := s.(pos := r.y - h, vel := 0.0);
      if !CrossedFromBelow(oldY, s.pos, h, r) then snapped
      else
        match FindCoinBlock(s.coins, i)
        case None => snapped
        case Some(j) =>
          if !s.coins[j].active then snapped
          else snapped.(coins := s.coins[j := s.coins[j].(active := false)],
                        tally := Collect(s.tally, 1),
                        pops := s.pops + [Spawn(r.x + r.width / 2.0, r.y + r.height)])
  }

  function UpScan(solids: seq<Rect>, n: nat, start: Bump, x: real, oldY: real, w: real, h: real): Bump
    requires n <= |solids|
  {
    if n == 0 then start else UpStep(UpScan(solids, n - 1, start, x, oldY, w, h), solids, n - 1, x, oldY, w, h)
  }

  // ---------------------------------------------------------------- the whole step

  /** The rising branch of step (4), from the X-resolved position x and the predicted target ty. */
  function RisePass(solids: seq<Rect>, f: Frame, x: real, ty: real): Bump
  {
    UpScan(solids, |solids|, Bump(ty, f.player.vy, f.coins, f.tally, f.pops), x, f.player.y, f.player.w, f.player.h)
  }

  /** The falling branch (negative vertical velocity) or the resting branch (zero) of step (4). */
  function FallPass(solids: seq<Rect>, p: Body, x: real, ty: real): Landing
  {
    if p.vy < 0.0 then DownScan(solids, |solids|, Landing(ty, p.vy, false), x, p.w, p.h)
    else SettleScan(solids, |solids|, Landing(ty, p.vy, false), x, p.w, p.h)
  }

  /** Steps (3) and (4) of update, from the predicted target (tx, ty): resolve X against the solids,
      then resolve Y from the X-resolved position with the branch the vertical velocity selects.
      The player of the result holds the resolved targets, before the backup floor and the clamp. */
  function Collide(solids: seq<Rect>, f: Frame, tx: real, ty: real): (g: Frame)
    ensures g.player.w == f.player.w && g.player.h == f.player.h
  {
    var p := f.player;
    var xr := XPass(solids, tx, p.y, p.w, p.h, p.vx);
    if p.vy > 0.0 then
      var b := RisePass(solids, f, xr.pos, ty);
      Frame(Body(xr.pos, b.pos, xr.vel, b.vel, p.w, p.h, false), b.coins, b.tally, b.pops)
    else
      var l := FallPass(solids, p, xr.pos, ty);
      Frame(Body(xr.pos, l.pos, xr.vel, l.vel, p.w, p.h, l.grounded), f.coins, f.tally, f.pops)
  }

  /** The backup floor of step (5): a target below the floor line is put on it, a downward velocity is
      cancelled and the player counts as grounded. */
  function BackupFloor(p: Body): Body
  {
    if p.y < FloorLevel then p.(y := FloorLevel, vy := Max(p.vy, 0.0), grounded := true) else p
  }

  /** Step (2) of update: the target the velocity predicts for this frame. */
  function Predict(pos: real, vel: real, delta: real): real
  {
    pos + vel * delta
  }

  /** One whole update of the player, coin blocks, counters and spawned effects (effect pruning aside):
      prediction, collisions, backup floor, then the clamp of step (7) into the map. */
  function Step(solids: seq<Rect>, f: Frame, delta: real, mapW: real, mapH: real): (g: Frame)
    ensures 0.0 <= g.player.x <= Max(0.0, mapW - f.player.w)
    ensures 0.0 <= g.player.y <= Max(0.0, mapH - f.player.h)
    ensures g.player.w == f.player.w && g.player.h == f.player.h
    ensures var c := Collide(solids, f, Predict(f.player.x, f.player.vx, delta), Predict(f.player.y, f.player.vy, delta));
            c.player.y < FloorLevel ==> g.player.vy >= 0.0 && g.player.grounded
  {
    var c := Collide(solids, f, Predict(f.player.x, f.player.vx, delta), Predict(f.player.y, f.player.vy, delta));
    var p := BackupFloor(c.player);
    var x := Clamp(p.x, 0.0, Max(0.0, mapW - p.w));
    var y := Clamp(p.y, 0.0, Max(0.0, mapH - p.h));
    Frame(p.(x := x, y := y), c.coins, c.tally, c.pops)
  }

  // ---------------------------------------------------------------- the loops

  /** Step (3): the X pass over the solids with a moving working rectangle. */
  method SweepX(solids: seq<Rect>, x: real, y: real, w: real, h: real, vx: real) returns (tx: real, v: real)
    ensures Axis(tx, v) == XPass(solids, x, y, w, h, vx)
    ensures vx == 0.0 ==> tx == x && v == vx
  {
    tx, v := x, vx;
    var rect := Rect(tx, y, w, h);
    if v != 0.0 {
      var i := 0;
      while i < |solids|
        invariant 0 <= i <= |solids|
        invariant rect == Rect(tx, y, w, h)
        invariant Axis(tx, v) == XScan(solids, i, Axis(x, vx), y, w, h)
      {
        var r := solids[i];
        if Overlaps(rect, r) {
          if v > 0.0 { tx := r.x - w; } else { tx := r.x + r.width; }
          v := 0.0;
          rect := rect.(x := tx);
        }
        i := i + 1;
      }
    }
  }

  /** The falling branch of step (4). */
  method SweepDown(solids: seq<Rect>, x: real, y: real, w: real, h: real, vy: real)
    returns (ty: real, v: real, grounded: bool)
    ensures Landing(ty, v, grounded) == DownScan(solids, |solids|, Landing(y, vy, false), x, w, h)
  {
    ty, v, grounded := y, vy, false;
    var rect := Rect(x, ty, w, h);
    for i := 0 to |solids|
      invariant rect == Rect(x, ty, w, h)
      invariant Landing(ty, v, grounded) == DownScan(solids, i, Landing(y, vy, false), x, w, h)
    {
      var r := solids[i];
      if Overlaps(rect, r) {
        ty := r.y + r.height;
        v := 0.0;
        grounded := true;
        rect := rect.(y := ty);
      }
    }
  }

  /** The zero-velocity branch of step (4). */
  method SweepSettle(solids: seq<Rect>, x: real, y: real, w: real, h: real, vy: real)
    returns (ty: real, grounded: bool)
    ensures Landing(ty, vy, grounded) == SettleScan(solids, |solids|, Landing(y, vy, false), x, w, h)
  {
    ty, grounded := y, false;
    var rect := Rect(x, ty, w, h);
    for i := 0 to |solids|
      invariant rect == Rect(x, ty, w, h)
      invariant Landing(ty, vy, grounded) == SettleScan(solids, i, Landing(y, vy, false), x, w, h)
    {
      var r := solids[i];
      if Overlaps(rect, r) {
        ty := r.y + r.height;
        grounded := true;
        rect := rect.(y := ty);
      }
    }
  }
}
