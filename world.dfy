/** GameWorld.java: the world's collision list, coin blocks, coin effects and counters, its
    constructor's assembly of the collision list, and the per-frame update, each method proved
    against the specification functions of Loading, Collision and Scoring. */
module World {
  import opened Geometry
  import opened Scoring
  import opened Coins
  import opened Collision
  import opened CollisionFacts
  import opened Loading

  /** The rectangles of the listed map objects, in list order. */
  function RefRects(objects: seq<Rect>, refs: seq<nat>): seq<Rect>
    requires forall k :: 0 <= k < |refs| ==> refs[k] < |objects|
  {
    seq(|refs|, k requires 0 <= k < |refs| => objects[refs[k]])
  }

  /** The coin blocks of the object layers, each pointing at the position of its own rectangle
      among the merged solids. */
  function RefCoins(refs: seq<nat>, coinRefs: seq<nat>): (r: seq<CoinBlock>)
    requires forall c :: c in coinRefs ==> c in refs
    ensures |r| == |coinRefs|
    ensures forall j :: 0 <= j < |coinRefs| ==> r[j].active && r[j].solid < |refs| && refs[r[j].solid] == coinRefs[j]
  {
    seq(|coinRefs|, j requires 0 <= j < |coinRefs| => CoinBlock(IndexOfRef(refs, coinRefs[j]), true))
  }

  /** Reference identity survives loading: each object-layer coin block points at the solid that
      is its own map object's rectangle, the very rectangle findCoinBlockByRect will match it by. */
  lemma RefCoinsShareOwnRect(objects: seq<Rect>, refs: seq<nat>, coinRefs: seq<nat>, j: nat)
    requires forall k :: 0 <= k < |refs| ==> refs[k] < |objects|
    requires forall c :: c in coinRefs ==> c in refs
    requires j < |coinRefs|
    ensures RefCoins(refs, coinRefs)[j].solid < |RefRects(objects, refs)|
    ensures RefRects(objects, refs)[RefCoins(refs, coinRefs)[j].solid] == objects[coinRefs[j]]
  {
    var k := RefCoins(refs, coinRefs)[j].solid;
    assert refs[k] == coinRefs[j];
  }

  /** Every coin block of the loaded world, from the object layers or the tile scan, points into
      the loaded collision list. */
  lemma LoadedCoinsInRange(refs: seq<nat>, coinRefs: seq<nat>, fs: seq<Found>)
    requires forall c :: c in coinRefs ==> c in refs
    ensures var cs := RefCoins(refs, coinRefs) + CoinEntries(fs, |refs|);
            forall j :: 0 <= j < |cs| ==> cs[j].solid < |refs| + |RectsOf(fs)|
  {
    var rc := RefCoins(refs, coinRefs);
    var ce := CoinEntries(fs, |refs|);
    var cs: seq<CoinBlock> := rc + ce;
    CoinEntriesSound(fs, |refs|);
    forall j | 0 <= j < |cs|
      ensures cs[j].solid < |refs| + |RectsOf(fs)|
    {
      if j >= |rc| {
        assert SoundEntry(fs, |refs|, ce[j - |rc|]);
      }
    }
  }

  /** The first i + 1 elements are the first i and then element i. */
  lemma SplitAt<T>(s: seq<T>, i: nat)
    requires i < |s|
    ensures s[..i + 1] == s[..i] + [s[i]]
  {
  }

  /** Overwriting the element between p and r. */
  lemma ReplaceMiddle<T>(p: seq<T>, a: T, b: T, r: seq<T>)
    ensures (p + [a] + r)[|p| := b] == p + [b] + r
  {
    var s := (p + [a] + r)[|p| := b];
    assert forall k :: 0 <= k < |s| ==> s[k] == (p + [b] + r)[k];
  }

  /** Removing the element between p and r. */
  lemma DropMiddle<T>(p: seq<T>, b: T, r: seq<T>)
    ensures (p + [b] + r)[..|p|] + (p + [b] + r)[|p| + 1..] == p + r
  {
    var s := p + [b] + r;
    assert s[..|p|] == p;
    assert s[|p| + 1..] == r;
  }

  class GameWorld {
    var player: Body
    var solids: seq<Rect>
    var coinBlocks: seq<CoinBlock>
    var coinEffects: seq<CoinPop>
    var score: int
    var stage: int
    const mapWidthPx: real
    const mapHeightPx: real

    /** The counters are in range and every coin block shares a rectangle of the collision list. */
    ghost predicate Valid()
      reads this
    {
      && ValidTally(Tally(score, stage))
      && forall j :: 0 <= j < |coinBlocks| ==> coinBlocks[j].solid < |solids|
    }

    /** The state update reads and writes, as a value. */
    function State(): Frame
      reads this
    {
      Frame(player, coinBlocks, Tally(score, stage), coinEffects)
    }

    /** new GameWorld: the map size in pixels; the player at (100, FloorLevel), 16 by 32, at rest
        and grounded; the object-layer solids in load order with the coin blocks' rectangles merged
        in; the object-layer coin blocks, each sharing its rectangle with a solid; then what the
        tile scan appends. */
    constructor(mapWidthTiles: int, mapHeightTiles: int, tileWidth: int, tileHeight: int,
                objects: seq<Rect>, layers: ObjectLayers, tiles: seq<Layer>)
      requires forall r :: r in SolidRefs(layers) ==> r < |objects|
      requires forall r :: r in layers.coinBlocks ==> r < |objects|
      requires Distinct(SolidRefs(layers))
      ensures Valid()
      ensures mapWidthPx == mapWidthTiles as real * tileWidth as real && mapHeightPx == mapHeightTiles as real * tileHeight as real
      ensures player == Body(100.0, FloorLevel, 0.0, 0.0, 16.0, 32.0, true)
      ensures score == 0 && stage == 1 && coinEffects == []
      ensures var refs := Merged(SolidRefs(layers), CoinRefs(layers));
              var fs := ScanFinds(tiles, |tiles|, mapWidthTiles, mapHeightTiles, tileWidth, tileHeight);
              && (forall k :: 0 <= k < |refs| ==> refs[k] < |objects|)
              && (forall c :: c in CoinRefs(layers) ==> c in refs)
              && solids == RefRects(objects, refs) + RectsOf(fs)
              && coinBlocks == RefCoins(refs, CoinRefs(layers)) + CoinEntries(fs, |refs|)
    ensures forall j :: 0 <= j < |CoinRefs(layers)| ==>
              coinBlocks[j].solid < |solids| && solids[coinBlocks[j].solid] == objects[CoinRefs(layers)[j]]
    {
      mapWidthPx := mapWidthTiles as real * tileWidth as real;
      mapHeightPx := mapHeightTiles as real * tileHeight as real;
      player := Body(100.0, FloorLevel, 0.0, 0.0, 16.0, 32.0, true);
      var solidRefs := SolidRefs(layers);
      var coinRefs := CoinRefs(layers);
      var refs := MergeCoinRefs(solidRefs, coinRefs);
      MergedLayersInRange(layers, |objects|);
      solids := RefRects(objects, refs);
      coinBlocks := RefCoins(refs, coinRefs);
      coinEffects := [];
      score := 0;
      stage := 1;
      new;
      ScanTileLayers(tiles, mapWidthTiles, mapHeightTiles, tileWidth, tileHeight);
      LoadedCoinsInRange(refs, coinRefs, ScanFinds(tiles, |tiles|, mapWidthTiles, mapHeightTiles, tileWidth, tileHeight));
      forall j | 0 <= j < |coinRefs|
        ensures coinBlocks[j].solid < |solids| && solids[coinBlocks[j].solid] == objects[coinRefs[j]]
      {
        RefCoinsShareOwnRect(objects, refs, coinRefs, j);
      }
    }

    /** scanTileLayersForSolidsAndCoinBlocks: every flagged tile of every tile layer, layer by
        layer, row by row from the bottom, left to right, is appended to the solids, and the coin
        tiles also become active coin blocks pointing at their new solid. */
    method ScanTileLayers(layers: seq<Layer>, mapWidthTiles: int, mapHeightTiles: int, tileWidth: int, tileHeight: int)
      modifies `solids, `coinBlocks
      ensures var fs := ScanFinds(layers, |layers|, mapWidthTiles, mapHeightTiles, tileWidth, tileHeight);
              solids == old(solids) + RectsOf(fs) && coinBlocks == old(coinBlocks) + CoinEntries(fs, |old(solids)|)
    {
      var rects, coins := solids, coinBlocks;
      ghost var fs: seq<Found> := [];
      for li := 0 to |layers|
        invariant fs == ScanFinds(layers, li, mapWidthTiles, mapHeightTiles, tileWidth, tileHeight)
        invariant rects == old(solids) + RectsOf(fs)
        invariant coins == old(coinBlocks) + CoinEntries(fs, |old(solids)|)
      {
        ghost var more := LayerFinds(layers[li], mapWidthTiles, mapHeightTiles, tileWidth, tileHeight);
        FindsApplied(old(solids), old(coinBlocks), fs, more);
        rects, coins := ScanLayer(layers[li], mapWidthTiles, mapHeightTiles, tileWidth, tileHeight, rects, coins);
        fs := fs + more;
      }
      solids, coinBlocks := rects, coins;
    }

    /** The body of the layer loop of scanTileLayersForSolidsAndCoinBlocks: an object layer is
        skipped, a tile layer scanned. The lists grown so far come in and the grown lists go out. */
    static method ScanLayer(layer: Layer, mapWidthTiles: int, mapHeightTiles: int, tileWidth: int, tileHeight: int,
                            rects: seq<Rect>, coins: seq<CoinBlock>)
      returns (rects': seq<Rect>, coins': seq<CoinBlock>)
      ensures var fs := LayerFinds(layer, mapWidthTiles, mapHeightTiles, tileWidth, tileHeight);
              rects' == rects + RectsOf(fs) && coins' == coins + CoinEntries(fs, |rects|)
    {
      if layer.TileLayer? {
        rects', coins' := ScanGrid(layer.rows, mapWidthTiles, mapHeightTiles, tileWidth, tileHeight, rects, coins);
      } else {
        rects', coins' := rects, coins;
        assert rects' == rects + RectsOf([]) && coins' == coins + CoinEntries([], |rects|);
      }
    }

    /** The row loop of scanTileLayersForSolidsAndCoinBlocks over one tile layer: rows 0 ..
        height-1, bottom to top. */
    static method ScanGrid(rows: seq<seq<Option<Cell>>>, mapWidthTiles: int, mapHeightTiles: int, tileWidth: int, tileHeight: int,
                           rects: seq<Rect>, coins: seq<CoinBlock>)
      returns (rects': seq<Rect>, coins': seq<CoinBlock>)
      ensures var fs := GridFinds(rows, mapHeightTiles, mapWidthTiles, tileWidth, tileHeight);
              rects' == rects + RectsOf(fs) && coins' == coins + CoinEntries(fs, |rects|)
    {
      rects', coins' := rects, coins;
      var y := 0;
      assert rects' == rects + RectsOf([]) && coins' == coins + CoinEntries([], |rects|);
      while y < mapHeightTiles
        invariant 0 <= y && (y == 0 || y <= mapHeightTiles)
        invariant rects' == rects + RectsOf(GridFinds(rows, y, mapWidthTiles, tileWidth, tileHeight))
        invariant coins' == coins + CoinEntries(GridFinds(rows, y, mapWidthTiles, tileWidth, tileHeight), |rects|)
      {
        GridStep(rects, coins, rows, y, mapWidthTiles, tileWidth, tileHeight);
        rects', coins' := ScanRow(rows, y, mapWidthTiles, tileWidth, tileHeight, rects', coins');
        y := y + 1;
      }
      assert GridFinds(rows, y, mapWidthTiles, tileWidth, tileHeight) == GridFinds(rows, mapHeightTiles, mapWidthTiles, tileWidth, tileHeight);
    }

    /** The two inner loops of scanTileLayersForSolidsAndCoinBlocks for one row y: cells
        0 .. width-1 left to right, each flagged one appended as a solid and, when it is a coin
        block, as an active coin block pointing at that solid. */
    static method ScanRow(rows: seq<seq<Option<Cell>>>, y: int, mapWidthTiles: int, tileWidth: int, tileHeight: int,
                          rects: seq<Rect>, coins: seq<CoinBlock>)
      returns (rects': seq<Rect>, coins': seq<CoinBlock>)
      ensures var fs := RowFinds(rows, y, mapWidthTiles, tileWidth, tileHeight);
              rects' == rects + RectsOf(fs) && coins' == coins + CoinEntries(fs, |rects|)
    {
      rects', coins' := rects, coins;
      var x := 0;
      assert rects' == rects + RectsOf([]) && coins' == coins + CoinEntries([], |rects|);
      while x < mapWidthTiles
        invariant 0 <= x && (x == 0 || x <= mapWidthTiles)
        invariant rects' == rects + RectsOf(RowFinds(rows, y, x, tileWidth, tileHeight))
        invariant coins' == coins + CoinEntries(RowFinds(rows, y, x, tileWidth, tileHeight), |rects|)
      {
        RowStep(rects, coins, rows, y, x, tileWidth, tileHeight);
        rects', coins' := ScanCell(rows, x, y, tileWidth, tileHeight, rects', coins');
        x := x + 1;
      }
      assert RowFinds(rows, y, x, tileWidth, tileHeight) == RowFinds(rows, y, mapWidthTiles, tileWidth, tileHeight);
    }

    /** The body of the cell loop of scanTileLayersForSolidsAndCoinBlocks: a flagged tile at
        (x, y) is appended to the solids as its map rectangle and, when it is a coin block, as an
        active coin block pointing at that new solid; an empty or unflagged cell changes nothing. */
    static method ScanCell(rows: seq<seq<Option<Cell>>>, x: int, y: int, tileWidth: int, tileHeight: int,
                           rects: seq<Rect>, coins: seq<CoinBlock>)
      returns (rects': seq<Rect>, coins': seq<CoinBlock>)
      ensures var fs := CellFinds(CellAt(rows, x, y), x, y, tileWidth, tileHeight);
              rects' == rects + RectsOf(fs) && coins' == coins + CoinEntries(fs, |rects|)
    {
      rects', coins' := rects, coins;
      var cell := CellAt(rows, x, y);
      CellStep([], cell, x, y, tileWidth, tileHeight, |rects|);
      assert [] + CellFinds(cell, x, y, tileWidth, tileHeight) == CellFinds(cell, x, y, tileWidth, tileHeight);
      if !Flagged(cell) {
        return;
      }
      rects' := rects' + [TileRect(x, y, tileWidth, tileHeight)];
      if cell.value.coinBlock {
        coins' := coins' + [CoinBlock(|rects'| - 1, true)];
      }
    }

    /** onCoinCollected(amount): the counters move as Collect says. */
    method OnCoinCollected(amount: int)
      modifies `score, `stage
      ensures Tally(score, stage) == Collect(old(Tally(score, stage)), amount)
    {
      score := score + amount;
      if score >= CoinsPerStage {
        NextStage();
      }
    }

    /** nextStage: one stage up, score back to zero. */
    method NextStage()
      modifies `score, `stage
      ensures Tally(score, stage) == Scoring.NextStage(old(Tally(score, stage)))
    {
      stage := stage + 1;
      score := 0;
    }

    /** The rising branch of step (4): snap under every overlapping solid and stop; a head bump
        from below on an active coin block spawns a coin pop at the block's top centre, collects
        one coin and switches the block off. */
    method HeadBump(x: real, oldY: real, y: real, w: real, h: real, vy: real) returns (ty: real, v: real)
      modifies `coinBlocks, `coinEffects, `score, `stage
      ensures Bump(ty, v, coinBlocks, Tally(score, stage), coinEffects)
              == UpScan(solids, |solids|, Bump(y, vy, old(coinBlocks), old(Tally(score, stage)), old(coinEffects)), x, oldY, w, h)
    {
      ty, v := y, vy;
      var rect := Rect(x, ty, w, h);
      for i := 0 to |solids|
        invariant rect == Rect(x, ty, w, h)
        invariant Bump(ty, v, coinBlocks, Tally(score, stage), coinEffects)
                  == UpScan(solids, i, Bump(y, vy, old(coinBlocks), old(Tally(score, stage)), old(coinEffects)), x, oldY, w, h)
      {
        ghost var before := Bump(ty, v, coinBlocks, Tally(score, stage), coinEffects);
        var r := solids[i];
        if Overlaps(rect, r) {
          var crossedFromBelow := oldY + h <= r.y && ty + h >= r.y;
          ty := r.y - h;
          v := 0.0;
          rect := rect.(y := ty);
          if crossedFromBelow {
            var hit := FindCoinBlock(coinBlocks, i);
            if hit.Some? && coinBlocks[hit.value].active {
              coinEffects := coinEffects + [Spawn(r.x + r.width / 2.0, r.y + r.height)];
              OnCoinCollected(1);
              coinBlocks := coinBlocks[hit.value := coinBlocks[hit.value].(active := false)];
            }
          }
        }
        assert Bump(ty, v, coinBlocks, Tally(score, stage), coinEffects) == UpStep(before, solids, i, x, oldY, w, h);
      }
    }

    /** Step (10): walking the effects from the back, advance each by delta and drop the ones
        that finished; the survivors keep their order. */
    method PruneEffects(delta: real)
      modifies `coinEffects
      ensures coinEffects == Survivors(old(coinEffects), delta)
    {
      ghost var orig := coinEffects;
      var effects := coinEffects;
      var i := |effects|;
      assert orig[i..] == [];
      while i > 0
        invariant 0 <= i <= |orig|
        invariant effects == orig[..i] + Survivors(orig[i..], delta)
      {
        i := i - 1;
        ghost var p, rest := orig[..i], Survivors(orig[i + 1..], delta);
        SurvivorsFrom(orig, i, delta);
        SplitAt(orig, i);
        assert effects == p + [orig[i]] + rest;
        var fx := AdvancePop(effects[i], delta);
        ReplaceMiddle(p, orig[i], fx, rest);
        effects := effects[i := fx];
        if !fx.alive {
          DropMiddle(p, fx, rest);
          effects := effects[..i] + effects[i + 1..];
        }
      }
      assert orig[..0] == [];
      coinEffects := effects;
    }

    /** Steps (2) to (8) of update(delta): predict, resolve X, resolve Y from the resolved X
        (paying coins on head bumps), apply the backup floor and clamp to the map. The player,
        the coin blocks, the counters and the coin pops become those of Step. */
    method ResolveMotion(delta: real)
      modifies `player, `coinBlocks, `coinEffects, `score, `stage
      ensures Frame(player, coinBlocks, Tally(score, stage), coinEffects)
              == Step(solids, old(State()), delta, mapWidthPx, mapHeightPx)
    {
      ghost var f0 := State();
      var mapW, mapH := mapWidthPx, mapHeightPx;
      var w, h := player.w, player.h;
      var oldX, oldY := player.x, player.y;
      var targetX := Predict(oldX, player.vx, delta);
      var targetY := Predict(oldY, player.vy, delta);
      ghost var c := Collide(solids, f0, targetX, targetY);
      var vx, vy := player.vx, player.vy;
      targetX, vx := SweepX(solids, targetX, oldY, w, h, vx);
      var groundedNow := false;
      if vy != 0.0 {
        if vy > 0.0 {
          targetY, vy := HeadBump(targetX, oldY, targetY, w, h, vy);
        } else {
          targetY, vy, groundedNow := SweepDown(solids, targetX, targetY, w, h, vy);
        }
      } else {
        targetY, groundedNow := SweepSettle(solids, targetX, targetY, w, h, vy);
      }
      assert Frame(Body(targetX, targetY, vx, vy, w, h, groundedNow), coinBlocks, Tally(score, stage), coinEffects) == c;
      if targetY < FloorLevel {
        targetY := FloorLevel;
        vy := Max(vy, 0.0);
        groundedNow := true;
      }
      assert Body(targetX, targetY, vx, vy, w, h, groundedNow) == BackupFloor(c.player);
      targetX := Clamp(targetX, 0.0, Max(0.0, mapW - w));
      targetY := Clamp(targetY, 0.0, Max(0.0, mapH - h));
      player := Body(targetX, targetY, vx, vy, w, h, groundedNow);
    }

    /** update(delta): steps (2) to (8) as ResolveMotion, then step (10), advancing and pruning
        the coin pops. The new state is Step of the old one; the collision list never changes,
        the player stays inside the map, and the counters and the coin blocks' links to solids
        stay valid. */
    method Update(delta: real)
      modifies this
      ensures solids == old(solids)
      ensures var g := Step(old(solids), old(State()), delta, mapWidthPx, mapHeightPx);
              && player == g.player
              && coinBlocks == g.coins
              && Tally(score, stage) == g.tally
              && coinEffects == Survivors(g.pops, delta)
      ensures 0.0 <= player.x <= Max(0.0, mapWidthPx - player.w)
      ensures 0.0 <= player.y <= Max(0.0, mapHeightPx - player.h)
      ensures old(Valid()) ==> Valid()
    {
      ghost var f0 := State();
      ResolveMotion(delta);
      ghost var g := Step(solids, f0, delta, mapWidthPx, mapHeightPx);
      PruneEffects(delta);
      assert player == g.player && coinBlocks == g.coins && Tally(score, stage) == g.tally;
      if old(Valid()) {
        StepConservesCoins(solids, f0, delta, mapWidthPx, mapHeightPx);
      }
    }
  }
}
