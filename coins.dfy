/** Coin blocks and coin-pop effects as GameWorld keeps them. */
module Coins {

  datatype Option<T> = None | Some(value: T)

  /** A coin block: `solid` is the index in the solid list of the rectangle it shares with it
      (the rectangle instance the source compares by reference), `active` that it still pays. */
  datatype CoinBlock = CoinBlock(solid: nat, active: bool)

  /** findCoinBlockByRect: the first coin block whose rectangle is solid number `solid`. */
  function FindCoinBlock(coins: seq<CoinBlock>, solid: nat): (r: Option<nat>)
    ensures r.Some? ==> r.value < |coins| && coins[r.value].solid == solid
    ensures r.Some? ==> forall k :: 0 <= k < r.value ==> coins[k].solid != solid
    ensures r.None? <==> forall k :: 0 <= k < |coins| ==> coins[k].solid != solid
  {
    if coins == [] then None
    else if coins[0].solid == solid then Some(0)
    else match FindCoinBlock(coins[1..], solid)
      case None => None
      case Some(k) => Some(k + 1)
  }

  /** How many coin blocks can still pay. */
  function ActiveCount(coins: seq<CoinBlock>): (n: nat)
    ensures n <= |coins|
  {
    if coins == [] then 0 else (if coins[0].active then 1 else 0) + ActiveCount(coins[1..])
  }

  /** Switching one active block off removes exactly one payer. */
  lemma {:induction false} DeactivateCount(coins: seq<CoinBlock>, j: nat)
    requires j < |coins| && coins[j].active
    ensures ActiveCount(coins[j := coins[j].(active := false)]) == ActiveCount(coins) - 1
  {
    var c' := coins[j := coins[j].(active := false)];
    if j == 0 {
      assert c'[1..] == coins[1..];
    } else {
      assert c'[1..] == coins[1..][j - 1 := coins[j].(active := false)];
      DeactivateCount(coins[1..], j - 1);
    }
  }

  /** A CoinPopEffect: where it was spawned (block centre, block top), the time it has run and
      whether it still runs. */
  datatype CoinPop = CoinPop(centerX: real, topY: real, elapsed: real, alive: bool)

  /** The effect's full running time, in seconds. */
  const PopDuration: real := 0.45

  /** A fresh effect above a block: nothing elapsed yet, running. */
  function Spawn(centerX: real, topY: real): (e: CoinPop)
    ensures e.alive && e.elapsed == 0.0 && e.centerX == centerX && e.topY == topY
  {
    CoinPop(centerX, topY, 0.0, true)
  }

  /** CoinPopEffect.update(dt): a finished effect is left alone; a running one adds dt to its
      running time and finishes once the eased progress min(elapsed / duration, 1) reaches 1,
      that is once it has run for the whole duration. */
  function AdvancePop(e: CoinPop, dt: real): (r: CoinPop)
    ensures !e.alive ==> r == e
    ensures e.alive ==> r.centerX == e.centerX && r.topY == e.topY && r.elapsed == e.elapsed + dt
    ensures e.alive ==> (r.alive <==> r.elapsed < PopDuration)
  {
    if !e.alive then e
    else
      var elapsed := e.elapsed + dt;
      var t := if elapsed / PopDuration < 1.0 then elapsed / PopDuration else 1.0;
      e.(elapsed := elapsed, alive := !(t >= 1.0))
  }

  /** The effects left after every effect is advanced once by dt and the finished ones are
      dropped, in their original order. */
  function Survivors(effects: seq<CoinPop>, dt: real): (r: seq<CoinPop>)
    ensures |r| <= |effects|
  {
    if effects == [] then []
    else
      var e := AdvancePop(effects[0], dt);
      (if e.alive then [e] else []) + Survivors(effects[1..], dt)
  }

  /** Survivors of a suffix: the first effect, advanced, if it is still alive, then the survivors
      of the rest. */
  lemma SurvivorsFrom(effects: seq<CoinPop>, i: nat, dt: real)
    requires i < |effects|
    ensures Survivors(effects[i..], dt)
            == (if AdvancePop(effects[i], dt).alive then [AdvancePop(effects[i], dt)] else []) + Survivors(effects[i + 1..], dt)
  {
    assert effects[i..][1..] == effects[i + 1..];
  }

  /** Survivors keeps exactly the advanced effects that are still alive: nothing finished,
      nothing that was not advanced from the input, and no live effect dropped. */
  lemma {:induction false} SurvivorsFacts(effects: seq<CoinPop>, dt: real)
    ensures forall e :: e in Survivors(effects, dt) ==> e.alive
    ensures forall e :: e in Survivors(effects, dt) ==>
              exists k :: 0 <= k < |effects| && e == AdvancePop(effects[k], dt)
    ensures forall k :: 0 <= k < |effects| && AdvancePop(effects[k], dt).alive ==>
              AdvancePop(effects[k], dt) in Survivors(effects, dt)
  {
    if effects != [] {
      var tail := effects[1..];
      SurvivorsFacts(tail, dt);
      var e := AdvancePop(effects[0], dt);
      var r := Survivors(effects, dt);
      assert r == (if e.alive then [e] else []) + Survivors(tail, dt);
      forall x | x in r
        ensures exists k :: 0 <= k < |effects| && x == AdvancePop(effects[k], dt)
      {
        if x in Survivors(tail, dt) {
          var k :| 0 <= k < |tail| && x == AdvancePop(tail[k], dt);
          assert effects[k + 1] == tail[k];
        } else {
          assert x == AdvancePop(effects[0], dt);
        }
      }
      forall k | 0 <= k < |effects| && AdvancePop(effects[k], dt).alive
        ensures AdvancePop(effects[k], dt) in r
      {
        if k > 0 {
          assert effects[k] == tail[k - 1];
        }
      }
    }
  }
}
