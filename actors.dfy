/** Enemy patrol and respawn, coin reach and the coin pickup scan. */
module Actors {
  import opened Entities

  predicate InBounds(e: Enemy)
  {
    e.leftBound <= e.x <= e.rightBound
  }

  /** A live enemy's patrol step: move, then stop at and bounce off whichever bound was reached. */
  function Patrol(e: Enemy): (r: Enemy)
    ensures !e.isAlive ==> r == e
    ensures r == e.(x := r.x, vx := r.vx)
    ensures r.vx == e.vx || r.vx == -e.vx
    ensures e.isAlive && e.leftBound <= e.rightBound ==> InBounds(r)
    ensures e.isAlive && e.leftBound < e.x + e.vx < e.rightBound ==> r == e.(x := e.x + e.vx)
    ensures e.isAlive && e.leftBound < e.rightBound && e.x + e.vx <= e.leftBound ==>
              r.x == e.leftBound && r.vx == -e.vx
    ensures e.isAlive && e.leftBound < e.rightBound && e.x + e.vx >= e.rightBound ==>
              r.x == e.rightBound && r.vx == -e.vx
  {
    if !e.isAlive then e
    else
      var e1 := e.(x := e.x + e.vx);
      var e2 := if e1.x <= e1.leftBound then e1.(x := e1.leftBound, vx := -e1.vx) else e1;
      if e2.x >= e2.rightBound then e2.(x := e2.rightBound, vx := -e2.vx) else e2
  }

  /** Every enemy's patrol step; the position in the sequence is kept. */
  function PatrolAll(es: seq<Enemy>): (r: seq<Enemy>)
    ensures |r| == |es|
    ensures forall i :: 0 <= i < |es| ==> r[i] == Patrol(es[i])
  {
    seq(|es|, i requires 0 <= i < |es| => Patrol(es[i]))
  }

  /** The reset of one enemy: alive again at its spawn position and speed. */
  function Respawn(e: Enemy): (r: Enemy)
    ensures r.isAlive && r.x == e.initialX && r.y == e.initialY && r.vx == e.initialVx
    ensures r == e.(isAlive := r.isAlive, x := r.x, y := r.y, vx := r.vx)
  {
    e.(isAlive := true, x := e.initialX, y := e.initialY, vx := e.initialVx)
  }

  /** The pickup test: the player's centre is strictly closer to the coin's centre than radius + half the player's width. */
  predicate InReach(c: Coin, cx: real, cy: real)
  {
    var dx := cx - c.x;
    var dy := cy - c.y;
    var reach := c.radius + PlayerWidth / 2.0;
    reach > 0.0 && dx * dx + dy * dy < reach * reach
  }

  lemma PositiveProduct(x: real, y: real)
    requires x > 0.0 && y > 0.0
    ensures x * y > 0.0
  {
  }

  /** Squaring keeps the order of non-negative reals. */
  lemma SquareMonotone(a: real, b: real)
    requires 0.0 <= a && 0.0 <= b
    ensures a < b <==> a * a < b * b
  {
    if a < b {
      PositiveProduct(b - a, b + a);
      assert b * b - a * a == (b - a) * (b + a);
    } else if b < a {
      PositiveProduct(a - b, a + b);
      assert a * a - b * b == (a - b) * (a + b);
    }
  }

  /** The squared test is the source's Sqrt(dx*dx + dy*dy) < radius + 16, for d the non-negative root. */
  lemma InReachIsDistanceTest(c: Coin, cx: real, cy: real, d: real)
    requires d >= 0.0 && d * d == (cx - c.x) * (cx - c.x) + (cy - c.y) * (cy - c.y)
    ensures InReach(c, cx, cy) <==> d < c.radius + PlayerWidth / 2.0
  {
    var reach := c.radius + PlayerWidth / 2.0;
    if 0.0 < reach {
      SquareMonotone(d, reach);
    }
  }

  predicate Pickable(c: Coin, cx: real, cy: real)
  {
    !c.collected && InReach(c, cx, cy)
  }

  /** How many coins are still to be collected. */
  function Uncollected(cs: seq<Coin>): (n: nat)
    ensures n <= |cs|
  {
    if cs == [] then 0
    else Uncollected(cs[..|cs| - 1]) + (if cs[|cs| - 1].collected then 0 else 1)
  }

  datatype CoinScan = CoinScan(coins: seq<Coin>, gain: nat, events: seq<Event>)

  /** The first n coins scanned in order against the player's centre (cx, cy). */
  function CollectCoins(cs: seq<Coin>, cx: real, cy: real, n: nat): (r: CoinScan)
    requires n <= |cs|
    ensures |r.coins| == |cs|
    ensures forall j :: 0 <= j < |cs| ==>
              r.coins[j] == if j < n && Pickable(cs[j], cx, cy) then cs[j].(collected := true) else cs[j]
    ensures r.gain == CoinReward * |r.events|
    ensures forall k :: 0 <= k < |r.events| ==>
              r.events[k].CoinCollected? && r.events[k].coin < n && Pickable(cs[r.events[k].coin], cx, cy)
    ensures forall j :: 0 <= j < n && Pickable(cs[j], cx, cy) ==> CoinCollected(j) in r.events
    decreases n
  {
    if n == 0 then CoinScan(cs, 0, [])
    else
      var s := CollectCoins(cs, cx, cy, n - 1);
      var c := cs[n - 1];
      if Pickable(c, cx, cy) then
        CoinScan(s.coins[n - 1 := c.(collected := true)], s.gain + CoinReward, s.events + [CoinCollected(n - 1)])
      else s
  }

  lemma {:induction false} UncollectedAfterPickup(cs: seq<Coin>, j: nat)
    requires j < |cs| && !cs[j].collected
    ensures Uncollected(cs[j := cs[j].(collected := true)]) + 1 == Uncollected(cs)
    decreases |cs|
  {
    var n := |cs| - 1;
    var cs' := cs[j := cs[j].(collected := true)];
    if j < n {
      assert cs'[..n] == cs[..n][j := cs[j].(collected := true)];
      UncollectedAfterPickup(cs[..n], j);
    } else {
      assert cs'[..n] == cs[..n];
    }
  }

  /** The coins a scan awards are exactly the uncollected coins it turns collected. */
  lemma {:induction false} CoinGainMatchesCollected(cs: seq<Coin>, cx: real, cy: real, n: nat)
    requires n <= |cs|
    ensures var r := CollectCoins(cs, cx, cy, n);
            Uncollected(r.coins) + |r.events| == Uncollected(cs) &&
            r.gain == CoinReward * (Uncollected(cs) - Uncollected(r.coins))
    decreases n
  {
    if n > 0 {
      CoinGainMatchesCollected(cs, cx, cy, n - 1);
      var s := CollectCoins(cs, cx, cy, n - 1);
      if Pickable(cs[n - 1], cx, cy) {
        assert s.coins[n - 1] == cs[n - 1];
        UncollectedAfterPickup(s.coins, n - 1);
      }
    }
  }

  /** A second scan from the same spot collects nothing and awards nothing. */
  lemma RescanAwardsNothing(cs: seq<Coin>, cx: real, cy: real)
    ensures var first := CollectCoins(cs, cx, cy, |cs|);
            var again := CollectCoins(first.coins, cx, cy, |cs|);
            again.coins == first.coins && again.gain == 0 && again.events == []
  {
    var first := CollectCoins(cs, cx, cy, |cs|);
    var again := CollectCoins(first.coins, cx, cy, |cs|);
    forall j | 0 <= j < |cs|
      ensures !Pickable(first.coins[j], cx, cy)
    {
    }
    assert again.coins == first.coins;
    CoinGainMatchesCollected(first.coins, cx, cy, |cs|);
  }
}
