/** What the collision passes of GameWorld.update guarantee. */
module CollisionFacts {
  import opened Geometry
  import opened Scoring
  import opened Coins
  import opened Collision

  // ---------------------------------------------------------------- X pass

  /** While no solid overlaps the predicted rectangle, the X pass leaves position and velocity alone. */
  lemma {:induction false} XScanUntouched(solids: seq<Rect>, n: nat, start: Axis, y: real, w: real, h: real)
    requires n <= |solids|
    requires forall i :: 0 <= i < n ==> !Overlaps(Rect(start.pos, y, w, h), solids[i])
    ensures XScan(solids, n, start, y, w, h) == start
  {
    if n > 0 {
      XScanUntouched(solids, n - 1, start, y, w, h);
    }
  }

  /** A moving player is stopped by the X pass exactly when some solid overlaps the predicted
      rectangle; otherwise the pass changes nothing. */
  lemma {:induction false} XScanStopsIff(solids: seq<Rect>, n: nat, start: Axis, y: real, w: real, h: real)
    requires n <= |solids| && start.vel != 0.0
    ensures XScan(solids, n, start, y, w, h).vel == 0.0
            <==> exists i :: 0 <= i < n && Overlaps(Rect(start.pos, y, w, h), solids[i])
    ensures XScan(solids, n, start, y, w, h).vel != 0.0 ==> XScan(solids, n, start, y, w, h) == start
  {
    if n > 0 {
      XScanStopsIff(solids, n - 1, start, y, w, h);
      if !exists i :: 0 <= i < n - 1 && Overlaps(Rect(start.pos, y, w, h), solids[i]) {
        XScanUntouched(solids, n - 1, start, y, w, h);
      }
    }
  }

  /** The first solid the predicted rectangle overlaps stops the player against its near side
      (right edge on r.x when moving right, left edge on r.x + r.width when moving left). Every later
      overlap finds the velocity already zero and so snaps to that solid's right side: the final
      position is the first snap or the right side of some later solid. */
  lemma {:induction false} XScanAfterFirstHit(solids: seq<Rect>, n: nat, k: nat, start: Axis, y: real, w: real, h: real)
    requires k < n <= |solids| && start.vel != 0.0
    requires Overlaps(Rect(start.pos, y, w, h), solids[k])
    requires forall i :: 0 <= i < k ==> !Overlaps(Rect(start.pos, y, w, h), solids[i])
    ensures XScan(solids, k + 1, start, y, w, h)
            == Axis(if start.vel > 0.0 then solids[k].x - w else solids[k].x + solids[k].width, 0.0)
    ensures XScan(solids, n, start, y, w, h).vel == 0.0
    ensures var a := XScan(solids, n, start, y, w, h);
            a.pos == (if start.vel > 0.0 then solids[k].x - w else solids[k].x + solids[k].width)
            || exists j :: k < j < n && a.pos == solids[j].x + solids[j].width
  {
    XScanUntouched(solids, k, start, y, w, h);
    if n > k + 1 {
      XScanAfterFirstHit(solids, n - 1, k, start, y, w, h);
      var p := XScan(solids, n - 1, start, y, w, h);
      if Overlaps(Rect(p.pos, y, w, h), solids[n - 1]) {
        assert XScan(solids, n, start, y, w, h).pos == solids[n - 1].x + solids[n - 1].width;
      }
    }
  }

  /** The whole X pass: a moving player ends with zero horizontal velocity iff the predicted
      rectangle overlaps a solid; a still player, or one that overlaps nothing, keeps its prediction. */
  lemma XPassStopsIff(solids: seq<Rect>, x: real, y: real, w: real, h: real, vx: real)
    ensures vx == 0.0 ==> XPass(solids, x, y, w, h, vx) == Axis(x, vx)
    ensures vx != 0.0 ==>
      (XPass(solids, x, y, w, h, vx).vel == 0.0 <==> exists i :: 0 <= i < |solids| && Overlaps(Rect(x, y, w, h), solids[i]))
    ensures XPass(solids, x, y, w, h, vx).vel != 0.0 ==> XPass(solids, x, y, w, h, vx) == Axis(x, vx)
  {
    if vx != 0.0 {
      XScanStopsIff(solids, |solids|, Axis(x, vx), y, w, h);
    }
  }

  // ---------------------------------------------------------------- falling and resting passes

  /** Falling: the player is grounded by the pass exactly when some solid overlaps the predicted
      rectangle; it then stands on the top of a solid with zero velocity; otherwise nothing changes. */
  lemma {:induction false} DownScanLands(solids: seq<Rect>, n: nat, start: Landing, x: real, w: real, h: real)
    requires n <= |solids| && !start.grounded
    ensures var l := DownScan(solids, n, start, x, w, h);
            (l.grounded <==> exists i :: 0 <= i < n && Overlaps(Rect(x, start.pos, w, h), solids[i]))
            && (l.grounded ==> l.vel == 0.0 && exists j :: 0 <= j < n && l.pos == solids[j].y + solids[j].height)
            && (!l.grounded ==> l == start)
  {
    if n > 0 {
      DownScanLands(solids, n - 1, start, x, w, h);
      var p := DownScan(solids, n - 1, start, x, w, h);
      if Overlaps(Rect(x, p.pos, w, h), solids[n - 1]) {
        assert DownScan(solids, n, start, x, w, h).pos == solids[n - 1].y + solids[n - 1].height;
      }
    }
  }

  /** The zero-velocity safety net is the falling pass for a player at rest: same snaps, same
      grounding, and the velocity stays zero. */
  lemma {:induction false} SettleMatchesDown(solids: seq<Rect>, n: nat, start: Landing, x: real, w: real, h: real)
    requires n <= |solids| && start.vel == 0.0
    ensures SettleScan(solids, n, start, x, w, h) == DownScan(solids, n, start, x, w, h)
    ensures DownScan(solids, n, start, x, w, h).vel == 0.0
  {
    if n > 0 {
      SettleMatchesDown(solids, n - 1, start, x, w, h);
    }
  }

  // ---------------------------------------------------------------- rising pass

  /** Rising: the player is stopped exactly when some solid overlaps the predicted rectangle, its top
      then sits under a solid; with no overlap the whole rising state is untouched. */
  lemma {:induction false} UpScanStops(solids: seq<Rect>, n: nat, start: Bump, x: real, oldY: real, w: real, h: real)
    requires n <= |solids| && start.vel > 0.0
    ensures var b := UpScan(solids, n, start, x, oldY, w, h);
            (b.vel == 0.0 <==> exists i :: 0 <= i < n && Overlaps(Rect(x, start.pos, w, h), solids[i]))
            && (b.vel == 0.0 ==> exists j :: 0 <= j < n && b.pos == solids[j].y - h)
            && (b.vel != 0.0 ==> b == start)
  {
    if n > 0 {
      UpScanStops(solids, n - 1, start, x, oldY, w, h);
      var p := UpScan(solids, n - 1, start, x, oldY, w, h);
      if Overlaps(Rect(x, p.pos, w, h), solids[n - 1]) {
        assert UpScan(solids, n, start, x, oldY, w, h).pos == solids[n - 1].y - h;
      }
    }
  }

  /** Each snap of the rising pass moves the player down under the solid it overlaps, so the
      vertical target never increases during the pass. */
  lemma {:induction false} UpScanSinks(solids: seq<Rect>, n: nat, start: Bump, x: real, oldY: real, w: real, h: real)
    requires n <= |solids|
    ensures UpScan(solids, n, start, x, oldY, w, h).pos <= start.pos
  {
    if n > 0 {
      UpScanSinks(solids, n - 1, start, x, oldY, w, h);
    }
  }

  /** The same coin blocks, each pointing at the same solid, and none switched back on. */
  predicate NoneReactivated(a: seq<CoinBlock>, b: seq<CoinBlock>)
  {
    |b| == |a| && forall j :: 0 <= j < |b| ==> b[j].solid == a[j].solid && (b[j].active ==> a[j].active)
  }

  /** Coin accounting from one rising state to a later one: the same coin blocks, pointing at the
      same solids, none switched back on; coins collected plus blocks still active is constant,
      and so is coin pops spawned plus blocks still active; earlier pops are kept. */
  predicate Conserves(a: Bump, b: Bump)
  {
    && NoneReactivated(a.coins, b.coins)
    && Rank(b.tally) + ActiveCount(b.coins) == Rank(a.tally) + ActiveCount(a.coins)
    && |b.pops| + ActiveCount(b.coins) == |a.pops| + ActiveCount(a.coins)
    && a.pops <= b.pops
  }

  /** One solid of the rising pass: a payout switches exactly one active block off, adds one coin
      and one pop; anything else leaves coins, counters and pops alone. */
  lemma UpStepConserves(s: Bump, solids: seq<Rect>, i: nat, x: real, oldY: real, w: real, h: real)
    requires i < |solids| && ValidTally(s.tally)
    ensures ValidTally(UpStep(s, solids, i, x, oldY, w, h).tally)
    ensures Conserves(s, UpStep(s, solids, i, x, oldY, w, h))
  {
    var r := solids[i];
    if Overlaps(Rect(x, s.pos, w, h), r) && CrossedFromBelow(oldY, s.pos, h, r) {
      match FindCoinBlock(s.coins, i)
      case None =>
      case Some(j) =>
        if s.coins[j].active {
          DeactivateCount(s.coins, j);
          CollectOneCoin(s.tally);
        }
    }
  }

  lemma ConservesTrans(a: Bump, b: Bump, c: Bump)
    requires Conserves(a, b) && Conserves(b, c)
    ensures Conserves(a, c)
  {
  }

  /** The whole rising pass keeps the counters valid and the coin accounting balanced: a block
      never pays twice and every payout is one coin and one pop. */
  lemma {:induction false} UpScanConservesCoins(solids: seq<Rect>, n: nat, start: Bump, x: real, oldY: real, w: real, h: real)
    requires n <= |solids| && ValidTally(start.tally)
    ensures ValidTally(UpScan(solids, n, start, x, oldY, w, h).tally)
    ensures Conserves(start, UpScan(solids, n, start, x, oldY, w, h))
  {
    if n > 0 {
      UpScanConservesCoins(solids, n - 1, start, x, oldY, w, h);
      var p := UpScan(solids, n - 1, start, x, oldY, w, h);
      UpStepConserves(p, solids, n - 1, x, oldY, w, h);
      ConservesTrans(start, p, UpStep(p, solids, n - 1, x, oldY, w, h));
    }
  }

  /** A coin block pays only when the player's head comes up through its bottom edge in this frame:
      the old top was at or below the block and the predicted top at or above it. */
  lemma {:induction false} UpScanPaysFromBelow(solids: seq<Rect>, n: nat, start: Bump, x: real, oldY: real, w: real, h: real, j: nat)
    requires n <= |solids| && ValidTally(start.tally)
    requires j < |start.coins| && start.coins[j].active
    requires var b := UpScan(solids, n, start, x, oldY, w, h); j < |b.coins| && !b.coins[j].active
    ensures start.coins[j].solid < n
    ensures oldY + h <= solids[start.coins[j].solid].y <= start.pos + h
  {
    var b := UpScan(solids, n, start, x, oldY, w, h);
    assert n > 0;
    var p := UpScan(solids, n - 1, start, x, oldY, w, h);
    UpScanConservesCoins(solids, n - 1, start, x, oldY, w, h);
    if j < |p.coins| && !p.coins[j].active {
      UpScanPaysFromBelow(solids, n - 1, start, x, oldY, w, h, j);
    } else {
      // solid n - 1 switched block j off in the last step
      var r := solids[n - 1];
      UpScanSinks(solids, n - 1, start, x, oldY, w, h);
      assert Overlaps(Rect(x, p.pos, w, h), r) && CrossedFromBelow(oldY, p.pos, h, r);
    }
  }

  /** While no solid overlaps the predicted rectangle, the rising pass changes nothing. */
  lemma {:induction false} UpScanUntouched(solids: seq<Rect>, n: nat, start: Bump, x: real, oldY: real, w: real, h: real)
    requires n <= |solids|
    requires forall i :: 0 <= i < n ==> !Overlaps(Rect(x, start.pos, w, h), solids[i])
    ensures UpScan(solids, n, start, x, oldY, w, h) == start
  {
    if n > 0 {
      UpScanUntouched(solids, n - 1, start, x, oldY, w, h);
    }
  }

  /** With no block switched back on, the number of payable blocks can only drop. */
  lemma {:induction false} ActiveCountMonotone(a: seq<CoinBlock>, b: seq<CoinBlock>)
    requires NoneReactivated(a, b)
    ensures ActiveCount(b) <= ActiveCount(a)
  {
    if |a| > 0 {
      forall j | 0 <= j < |b[1..]|
        ensures b[1..][j].solid == a[1..][j].solid && (b[1..][j].active ==> a[1..][j].active)
      {
        assert b[1..][j] == b[j + 1] && a[1..][j] == a[j + 1];
      }
      ActiveCountMonotone(a[1..], b[1..]);
    }
  }

  /** Solid n - 1 of the rising pass keeps the counters valid and the coin accounting balanced. */
  lemma UpScanStepConserves(solids: seq<Rect>, n: nat, start: Bump, x: real, oldY: real, w: real, h: real)
    requires 0 < n <= |solids| && ValidTally(UpScan(solids, n - 1, start, x, oldY, w, h).tally)
    ensures ValidTally(UpScan(solids, n, start, x, oldY, w, h).tally)
    ensures Conserves(UpScan(solids, n - 1, start, x, oldY, w, h), UpScan(solids, n, start, x, oldY, w, h))
  {
    UpStepConserves(UpScan(solids, n - 1, start, x, oldY, w, h), solids, n - 1, x, oldY, w, h);
  }

  /** The rest of the rising pass, from the state after m solids on, keeps the counters valid and
      the coin accounting balanced. */
  lemma {:induction false} UpScanConservesFrom(solids: seq<Rect>, m: nat, n: nat, start: Bump, x: real, oldY: real, w: real, h: real)
    requires m <= n <= |solids| && ValidTally(UpScan(solids, m, start, x, oldY, w, h).tally)
    ensures ValidTally(UpScan(solids, n, start, x, oldY, w, h).tally)
    ensures Conserves(UpScan(solids, m, start, x, oldY, w, h), UpScan(solids, n, start, x, oldY, w, h))
    decreases n
  {
    if n > m {
      UpScanConservesFrom(solids, m, n - 1, start, x, oldY, w, h);
      UpScanStepConserves(solids, n, start, x, oldY, w, h);
      ConservesTrans(UpScan(solids, m, start, x, oldY, w, h), UpScan(solids, n - 1, start, x, oldY, w, h),
                     UpScan(solids, n, start, x, oldY, w, h));
    }
  }

  /** The solid that pays: the first solid the predicted rectangle overlaps, crossed from below,
      whose coin block is active, stops the player under it, pays one coin, spawns a coin pop above
      its centre and switches the block off. */
  lemma UpScanHeadBump(solids: seq<Rect>, start: Bump, x: real, oldY: real, w: real, h: real, k: nat, j: nat)
    requires k < |solids|
    requires forall i :: 0 <= i < k ==> !Overlaps(Rect(x, start.pos, w, h), solids[i])
    requires Overlaps(Rect(x, start.pos, w, h), solids[k])
    requires CrossedFromBelow(oldY, start.pos, h, solids[k])
    requires FindCoinBlock(start.coins, k) == Some(j) && start.coins[j].active
    ensures var r := solids[k];
            UpScan(solids, k + 1, start, x, oldY, w, h)
            == Bump(r.y - h, 0.0, start.coins[j := start.coins[j].(active := false)], Collect(start.tally, 1),
                    start.pops + [Spawn(r.x + r.width / 2.0, r.y + r.height)])
  {
    UpScanUntouched(solids, k, start, x, oldY, w, h);
  }

  /** What is paid stays paid: along balanced accounting a spent block stays spent, progress does
      not drop and the pops already spawned are kept in place. */
  lemma PaidStaysPaid(a: Bump, b: Bump, j: nat)
    requires Conserves(a, b)
    requires j < |a.coins| && !a.coins[j].active
    ensures j < |b.coins| && !b.coins[j].active
    ensures Rank(b.tally) >= Rank(a.tally)
    ensures a.pops <= b.pops
  {
    ActiveCountMonotone(a.coins, b.coins);
  }

  /** A head bump pays, and the rest of the rising pass never switches the block back on and
      never takes the coin or the pop away. */
  lemma UpScanPaysOnHeadBump(solids: seq<Rect>, n: nat, start: Bump, x: real, oldY: real, w: real, h: real, k: nat, j: nat)
    requires k < n <= |solids| && ValidTally(start.tally)
    requires forall i :: 0 <= i < k ==> !Overlaps(Rect(x, start.pos, w, h), solids[i])
    requires Overlaps(Rect(x, start.pos, w, h), solids[k])
    requires CrossedFromBelow(oldY, start.pos, h, solids[k])
    requires FindCoinBlock(start.coins, k) == Some(j) && start.coins[j].active
    ensures var b := UpScan(solids, n, start, x, oldY, w, h);
            && j < |b.coins| && !b.coins[j].active
            && Rank(b.tally) >= Rank(start.tally) + 1
            && |b.pops| > |start.pops|
            && b.pops[|start.pops|] == Spawn(solids[k].x + solids[k].width / 2.0, solids[k].y + solids[k].height)
  {
    UpScanHeadBump(solids, start, x, oldY, w, h, k, j);
    var b1 := UpScan(solids, k + 1, start, x, oldY, w, h);
    var b := UpScan(solids, n, start, x, oldY, w, h);
    CollectOneCoin(start.tally);
    UpScanConservesFrom(solids, k + 1, n, start, x, oldY, w, h);
    PaidStaysPaid(b1, b, j);
    assert b1.pops[|start.pops|] == b.pops[|start.pops|];
  }

  // ---------------------------------------------------------------- the whole step

  /** Coin accounting of steps (3) and (4): only the rising branch touches coin blocks, so blocks are
      never re-activated, progress plus active blocks is conserved, and one coin pop is spawned per
      coin paid. */
  lemma CollideConservesCoins(solids: seq<Rect>, f: Frame, tx: real, ty: real)
    requires ValidTally(f.tally)
    ensures var c := Collide(solids, f, tx, ty);
            ValidTally(c.tally)
            && |c.coins| == |f.coins|
            && (forall j :: 0 <= j < |c.coins| ==> c.coins[j].solid == f.coins[j].solid)
            && (forall j :: 0 <= j < |c.coins| && c.coins[j].active ==> f.coins[j].active)
            && Rank(c.tally) + ActiveCount(c.coins) == Rank(f.tally) + ActiveCount(f.coins)
            && |c.pops| + ActiveCount(c.coins) == |f.pops| + ActiveCount(f.coins)
            && f.pops <= c.pops
  {
    if f.player.vy > 0.0 {
      var x := XPass(solids, tx, f.player.y, f.player.w, f.player.h, f.player.vx).pos;
      UpScanConservesCoins(solids, |solids|, Bump(ty, f.player.vy, f.coins, f.tally, f.pops), x, f.player.y, f.player.w, f.player.h);
    }
  }

  /** The same accounting over a whole update (the backup floor and the clamp touch only the player). */
  lemma StepConservesCoins(solids: seq<Rect>, f: Frame, delta: real, mapW: real, mapH: real)
    requires ValidTally(f.tally)
    ensures var g := Step(solids, f, delta, mapW, mapH);
            ValidTally(g.tally)
            && |g.coins| == |f.coins|
            && (forall j :: 0 <= j < |g.coins| ==> g.coins[j].solid == f.coins[j].solid)
            && (forall j :: 0 <= j < |g.coins| && g.coins[j].active ==> f.coins[j].active)
            && Rank(g.tally) + ActiveCount(g.coins) == Rank(f.tally) + ActiveCount(f.coins)
            && |g.pops| + ActiveCount(g.coins) == |f.pops| + ActiveCount(f.coins)
            && f.pops <= g.pops
  {
    CollideConservesCoins(solids, f, Predict(f.player.x, f.player.vx, delta), Predict(f.player.y, f.player.vy, delta));
  }

  /** A coin block is paid out in steps (3) and (4) only by a rising player whose old top was at or
      below the block's bottom and whose predicted top reached it. */
  lemma CollidePaysOnlyOnHeadBump(solids: seq<Rect>, f: Frame, tx: real, ty: real, j: nat)
    requires ValidTally(f.tally)
    requires j < |f.coins| && f.coins[j].active
    requires var c := Collide(solids, f, tx, ty); j < |c.coins| && !c.coins[j].active
    ensures f.player.vy > 0.0
    ensures f.coins[j].solid < |solids|
    ensures f.player.y + f.player.h <= solids[f.coins[j].solid].y <= ty + f.player.h
  {
    if f.player.vy > 0.0 {
      var x := XPass(solids, tx, f.player.y, f.player.w, f.player.h, f.player.vx).pos;
      UpScanPaysFromBelow(solids, |solids|, Bump(ty, f.player.vy, f.coins, f.tally, f.pops), x, f.player.y, f.player.w, f.player.h, j);
    }
  }

  /** The same over a whole update, with the target predicted from the velocity. */
  lemma StepPaysOnlyOnHeadBump(solids: seq<Rect>, f: Frame, delta: real, mapW: real, mapH: real, j: nat)
    requires ValidTally(f.tally)
    requires j < |f.coins| && f.coins[j].active
    requires var g := Step(solids, f, delta, mapW, mapH); j < |g.coins| && !g.coins[j].active
    ensures f.player.vy > 0.0
    ensures f.coins[j].solid < |solids|
    ensures f.player.y + f.player.h <= solids[f.coins[j].solid].y <= Predict(f.player.y, f.player.vy, delta) + f.player.h
  {
    CollidePaysOnlyOnHeadBump(solids, f, Predict(f.player.x, f.player.vx, delta), Predict(f.player.y, f.player.vy, delta), j);
  }

  /** The payout side of steps (3) and (4): a rising player whose predicted rectangle, at the
      X-resolved position, first overlaps a solid crossed from below whose coin block is active
      collects at least that coin, sees its pop spawned and leaves the block switched off. */
  lemma CollidePaysOnHeadBump(solids: seq<Rect>, f: Frame, tx: real, ty: real, k: nat, j: nat)
    requires ValidTally(f.tally) && f.player.vy > 0.0
    requires var x := XPass(solids, tx, f.player.y, f.player.w, f.player.h, f.player.vx).pos;
             && k < |solids|
             && (forall i :: 0 <= i < k ==> !Overlaps(Rect(x, ty, f.player.w, f.player.h), solids[i]))
             && Overlaps(Rect(x, ty, f.player.w, f.player.h), solids[k])
    requires CrossedFromBelow(f.player.y, ty, f.player.h, solids[k])
    requires FindCoinBlock(f.coins, k) == Some(j) && f.coins[j].active
    ensures var c := Collide(solids, f, tx, ty);
            && j < |c.coins| && !c.coins[j].active
            && Rank(c.tally) >= Rank(f.tally) + 1
            && |c.pops| > |f.pops|
            && c.pops[|f.pops|] == Spawn(solids[k].x + solids[k].width / 2.0, solids[k].y + solids[k].height)
  {
    var x := XPass(solids, tx, f.player.y, f.player.w, f.player.h, f.player.vx).pos;
    UpScanPaysOnHeadBump(solids, |solids|, Bump(ty, f.player.vy, f.coins, f.tally, f.pops), x, f.player.y, f.player.w, f.player.h, k, j);
  }

  /** The same over a whole update, with the target predicted from the velocity. */
  lemma StepPaysOnHeadBump(solids: seq<Rect>, f: Frame, delta: real, mapW: real, mapH: real, k: nat, j: nat)
    requires ValidTally(f.tally) && f.player.vy > 0.0
    requires var tx := Predict(f.player.x, f.player.vx, delta);
             var ty := Predict(f.player.y, f.player.vy, delta);
             var x := XPass(solids, tx, f.player.y, f.player.w, f.player.h, f.player.vx).pos;
             && k < |solids|
             && (forall i :: 0 <= i < k ==> !Overlaps(Rect(x, ty, f.player.w, f.player.h), solids[i]))
             && Overlaps(Rect(x, ty, f.player.w, f.player.h), solids[k])
             && CrossedFromBelow(f.player.y, ty, f.player.h, solids[k])
    requires FindCoinBlock(f.coins, k) == Some(j) && f.coins[j].active
    ensures var g := Step(solids, f, delta, mapW, mapH);
            && j < |g.coins| && !g.coins[j].active
            && Rank(g.tally) >= Rank(f.tally) + 1
            && |g.pops| > |f.pops|
            && g.pops[|f.pops|] == Spawn(solids[k].x + solids[k].width / 2.0, solids[k].y + solids[k].height)
  {
    CollidePaysOnHeadBump(solids, f, Predict(f.player.x, f.player.vx, delta), Predict(f.player.y, f.player.vy, delta), k, j);
  }

  /** Axis separation on a diagonal approach: moving right and down into a wall next to a low tile,
      the X pass stops the player at the wall, and the falling pass, probed from the X-resolved
      position, finds nothing under it. Probed from the raw predicted X, it would have landed. */
  lemma AxisSeparationExample()
    ensures var solids := [Rect(20.0, 0.0, 10.0, 100.0), Rect(24.0, 0.0, 32.0, 32.0)];
            var f := Frame(Body(0.0, 40.0, 100.0, -100.0, 16.0, 32.0, false), [], Tally(0, 1), []);
            Step(solids, f, 0.1, 640.0, 480.0).player == Body(4.0, 30.0, 0.0, -100.0, 16.0, 32.0, false)
            && DownScan(solids, 2, Landing(30.0, -100.0, false), 10.0, 16.0, 32.0).grounded
  {
    var solids := [Rect(20.0, 0.0, 10.0, 100.0), Rect(24.0, 0.0, 32.0, 32.0)];
    assert XScan(solids, 1, Axis(10.0, 100.0), 40.0, 16.0, 32.0) == Axis(4.0, 0.0);
    assert XScan(solids, 2, Axis(10.0, 100.0), 40.0, 16.0, 32.0) == Axis(4.0, 0.0);
    assert DownScan(solids, 1, Landing(30.0, -100.0, false), 4.0, 16.0, 32.0) == Landing(30.0, -100.0, false);
    assert DownScan(solids, 1, Landing(30.0, -100.0, false), 10.0, 16.0, 32.0).grounded;
  }
}
