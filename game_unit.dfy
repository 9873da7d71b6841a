/**
 * One lane of the game: a player character, the obstacles on screen in
 * spawn order, and the spawner's spacing counter. `UnitLoop` is one tick.
 */
module GameUnits {
  import opened Wrappers
  import opened Objects

  // ---------------------------------------------------------------------
  // Spawner (add_barrier)
  // ---------------------------------------------------------------------

  /** The random outcomes one call of the spawner may use: the three
    * `randint` results (a kind spawns only on a 0), the sprite index of a
    * new Fence and of a new Tree, and the uniform [0, 1) draw that sets a
    * new Pinball's gravity. */
  datatype Draws = Draws(fence: int, tree: int, ball: int, fenceKind: nat, treeKind: nat, ballRandom: real)
  {
    predicate Valid() {
      fenceKind < FenceKinds && treeKind < TreeKinds && 0.0 <= ballRandom < 1.0
    }
  }

  /** The minimum spacing: a spawn needs more than 80 - 3 * gradient ticks
    * since the last one. */
  predicate SpacingMet(count: int, gradient: real)
    // at any non-negative gradient, 81 ticks are always enough
    ensures 0.0 <= gradient && count > 80 ==> SpacingMet(count, gradient)
    // even at the capped gradient 20, spawns stay more than 20 ticks apart
    ensures gradient <= 20.0 && count <= 20 ==> !SpacingMet(count, gradient)
  {
    count as real > 80.0 - gradient * 3.0
  }

  /** What the spawner adds when `count` ticks have passed since the last
    * spawn: a Fence, else a Tree, else (from gradient 0.5 on) a Pinball,
    * each only when its draw is 0, and each sped up by the gradient. */
  function Spawned(count: int, gradient: real, d: Draws, cvW: real, cvH: real): (r: Option<Obstacle>)
    requires d.Valid()
    // nothing spawns before the spacing is met
    ensures r.Some? ==> SpacingMet(count, gradient)
    // the priority chain: Fence first, then Tree, then Pinball
    ensures r.Some? && r.value.Fence? <==> SpacingMet(count, gradient) && d.fence == 0
    ensures r.Some? && r.value.Tree? <==> SpacingMet(count, gradient) && d.fence != 0 && d.tree == 0
    ensures r.Some? && r.value.Pinball? <==>
            SpacingMet(count, gradient) && d.fence != 0 && d.tree != 0 && gradient >= 0.5 && d.ball == 0
    // every new obstacle starts just past the right edge at speed 7 + gradient
    ensures r.Some? ==> r.value.x - r.value.width / 2.0 == cvW && r.value.xSpeed == 7.0 + gradient
    // Trees and Fences stand on the bottom edge
    ensures r.Some? && !r.value.Pinball? ==> r.value.y + r.value.height / 2.0 == cvH
    // a Pinball falls faster with the gradient
    ensures r.Some? && r.value.Pinball? ==> r.value.gravity == BaseGravity(d.ballRandom) + gradient * 0.06
  {
    if SpacingMet(count, gradient) && d.fence == 0 then
      var f := NewFence(cvW, cvH, d.fenceKind);
      Some(Fence(f.kind, f.x, f.y, f.width, f.height, f.xSpeed + gradient))
    else if SpacingMet(count, gradient) && d.tree == 0 then
      var t := NewTree(cvW, cvH, d.treeKind);
      Some(Tree(t.kind, t.x, t.y, t.width, t.height, t.xSpeed + gradient))
    else if gradient >= 0.5 && SpacingMet(count, gradient) && d.ball == 0 then
      var b := NewPinball(cvW, cvH, d.ballRandom);
      Some(Pinball(b.cvH, b.radius, b.width, b.x, b.y, b.xSpeed + gradient, b.ySpeed,
                   b.gravity + gradient * 0.06, b.attenuation))
    else None
  }

  /** With the same draws, a harder lane spawns whatever an easier one
    * would: raising the gradient never prevents a spawn nor changes its kind. */
  lemma {:induction false} SpawnedMonotone(count: int, g: real, g': real, d: Draws, cvW: real, cvH: real)
    requires d.Valid() && g <= g'
    requires Spawned(count, g, d, cvW, cvH).Some?
    ensures Spawned(count, g', d, cvW, cvH).Some?
    ensures Spawned(count, g', d, cvW, cvH).value.Fence? == Spawned(count, g, d, cvW, cvH).value.Fence?
    ensures Spawned(count, g', d, cvW, cvH).value.Tree? == Spawned(count, g, d, cvW, cvH).value.Tree?
  {
    assert SpacingMet(count, g');
  }

  /** The number of equally likely outcomes of `randint(0, int(k - 2 * gradient))`
    * (Python's int() truncates, which for a non-negative value is the floor). */
  function Odds(k: real, gradient: real): (n: int)
    requires 2.0 * gradient <= k
    ensures 1 <= n
  {
    (k - 2.0 * gradient).Floor + 1
  }

  /** The bases of the three spawn draws: `randint(0, int(K - 2 * gradient))`
    * with K = 100 for a Fence, 120 for a Tree and 200 for a Pinball. */
  const FenceOddsBase: real := 100.0
  const TreeOddsBase: real := 120.0
  const BallOddsBase: real := 200.0

  /** At every gradient the clamp allows, a Fence draw is likelier to be 0
    * than a Tree draw, and a Tree draw likelier than a Pinball draw. */
  lemma OddsOrdered(g: real)
    requires 0.0 <= g <= 20.0
    ensures Odds(FenceOddsBase, g) < Odds(TreeOddsBase, g) < Odds(BallOddsBase, g)
    ensures Odds(TreeOddsBase, g) == Odds(FenceOddsBase, g) + 20
    ensures Odds(BallOddsBase, g) == Odds(FenceOddsBase, g) + 100
  {
  }

  /** The chance that a draw is 0, 1 / Odds, never falls as the gradient rises. */
  lemma OddsShrink(k: real, g: real, g': real)
    requires 2.0 * g' <= k && g <= g'
    ensures Odds(k, g') <= Odds(k, g)
  {
  }

  // ---------------------------------------------------------------------
  // Pruning and collision scan (unit_loop)
  // ---------------------------------------------------------------------

  /** Every obstacle advanced by one step, in order. */
  function AdvanceAll(s: seq<Obstacle>): (r: seq<Obstacle>)
    ensures |r| == |s|
    ensures forall i :: 0 <= i < |s| ==> r[i] == Advance(s[i])
  {
    if s == [] then [] else [Advance(s[0])] + AdvanceAll(s[1..])
  }

  /** The obstacles still on screen, in their original order. */
  function Survivors(s: seq<Obstacle>): (r: seq<Obstacle>)
    ensures |r| <= |s|
    ensures forall o :: o in r ==> o in s && Retained(o)
    ensures forall o :: o in s && Retained(o) ==> o in r
  {
    if s == [] then []
    else (if Retained(s[0]) then [s[0]] else []) + Survivors(s[1..])
  }

  /** Pruning works piece by piece, so it keeps the relative order. */
  lemma {:induction false} SurvivorsAppend(a: seq<Obstacle>, b: seq<Obstacle>)
    ensures Survivors(a + b) == Survivors(a) + Survivors(b)
  {
    if a == [] {
      assert a + b == b;
    } else {
      assert (a + b)[1..] == a[1..] + b;
      SurvivorsAppend(a[1..], b);
    }
  }

  /** A sequence whose members are all on screen is kept whole. */
  lemma {:induction false} SurvivorsAllRetained(s: seq<Obstacle>)
    requires forall i :: 0 <= i < |s| ==> Retained(s[i])
    ensures Survivors(s) == s
  {
    if s != [] {
      SurvivorsAllRetained(s[1..]);
    }
  }

  /** Advancing works piece by piece. */
  lemma {:induction false} AdvanceAllAppend(a: seq<Obstacle>, b: seq<Obstacle>)
    ensures AdvanceAll(a + b) == AdvanceAll(a) + AdvanceAll(b)
  {
    if a == [] {
      assert a + b == b;
    } else {
      assert (a + b)[1..] == a[1..] + b;
      AdvanceAllAppend(a[1..], b);
    }
  }

  /** One tick of a lane whose obstacles are `earlier` followed by the new
    * spawn `s`: what survives of the old obstacles keeps its order and
    * stays ahead of what survives of the spawn. */
  lemma {:induction false} TickKeepsOrder(earlier: seq<Obstacle>, s: seq<Obstacle>)
    ensures Survivors(AdvanceAll(earlier + s)) == Survivors(AdvanceAll(earlier)) + Survivors(AdvanceAll(s))
  {
    AdvanceAllAppend(earlier, s);
    SurvivorsAppend(AdvanceAll(earlier), AdvanceAll(s));
  }

  /** A new obstacle, on a canvas of non-negative width and at a gradient
    * of at most 20, is still on screen after its first step. */
  lemma SpawnSurvivesFirstTick(count: int, gradient: real, d: Draws, cvW: real, cvH: real)
    requires d.Valid() && 0.0 <= cvW && gradient <= 20.0
    requires Spawned(count, gradient, d, cvW, cvH).Some?
    ensures Retained(Advance(Spawned(count, gradient, d, cvW, cvH).value))
  {
  }

  /** Advances each obstacle in turn and keeps, in order, those still on
    * screen. */
  method AdvanceAndPrune(all: seq<Obstacle>) returns (retained: seq<Obstacle>)
    ensures retained == Survivors(AdvanceAll(all))
  {
    retained := [];
    var i := 0;
    while i < |all|
      invariant 0 <= i <= |all|
      invariant retained == Survivors(AdvanceAll(all[..i]))
    {
      var o := Advance(all[i]);
      assert all[..i + 1] == all[..i] + [all[i]];
      AdvanceAllAppend(all[..i], [all[i]]);
      assert AdvanceAll([all[i]]) == [o];
      SurvivorsAppend(AdvanceAll(all[..i]), [o]);
      assert [o][1..] == [];
      assert Survivors([o]) == (if Retained(o) then [o] else []);
      if Retained(o) {
        retained := retained + [o];
      }
      i := i + 1;
    }
    assert all[..i] == all;
  }

  /** Scans the obstacles for one that collides with the character,
    * stopping at the first. */
  method DetectCollision(c: Body, obstacles: seq<Obstacle>) returns (hit: bool)
    ensures hit <==> exists i :: 0 <= i < |obstacles| && Collides(obstacles[i], c)
  {
    var i := 0;
    while i < |obstacles|
      invariant 0 <= i <= |obstacles|
      invariant forall j :: 0 <= j < i ==> !Collides(obstacles[j], c)
    {
      if Collides(obstacles[i], c) {
        return true;
      }
      i := i + 1;
    }
    return false;
  }

  // ---------------------------------------------------------------------
  // The lane
  // ---------------------------------------------------------------------

  /** A lane. The source keeps the character at index 0 of one list of
    * objects and the obstacles after it; here they are the fields `player`
    * and `obstacles`. */
  class GameUnit {
    const cvW: real
    const cvH: real
    const player: UserCharacter
    var obstacles: seq<Obstacle>
    var lastAdd: int

    /** The character stands at x = 200 on this lane's canvas, never below
      * its ground line and never falling faster than its maximum speed. */
    ghost predicate Valid()
      reads this, player
    {
      && player.x == 200.0
      && player.cvW == cvW && player.cvH == cvH
      && player.y <= player.Ground()
      && player.ySpeed <= player.maxSpeed
    }

    /** Some obstacle on the lane touches the character. */
    predicate Colliding()
      reads this, player
    {
      exists i :: 0 <= i < |obstacles| && Collides(obstacles[i], player.Shape())
    }

    /** The state of the lane a tick changes. */
    ghost function Lane(): (seq<Obstacle>, int, Motion)
      reads this, player
    {
      (obstacles, lastAdd, player.State())
    }

    constructor (cvW: real, cvH: real)
      ensures Valid() && fresh(player)
      ensures this.cvW == cvW && this.cvH == cvH
      ensures player.y == player.Ground() && player.ySpeed == 0.0
      ensures !player.isJumping && !player.isCheated
      ensures obstacles == [] && lastAdd == 100
    {
      this.cvW, this.cvH := cvW, cvH;
      player := new UserCharacter(cvW, cvH, 200.0, cvH - 60.0);
      obstacles := [];
      lastAdd := 100;
    }

    /** `add_barrier`: count the tick and append at most one new obstacle. */
    method AddBarrier(gradient: real, d: Draws)
      requires d.Valid()
      modifies this`obstacles, this`lastAdd
      ensures var s := Spawned(old(lastAdd) + 1, gradient, d, cvW, cvH);
              && obstacles == old(obstacles) + AsSeq(s)
              && lastAdd == (if s.Some? then 0 else old(lastAdd) + 1)
    {
      lastAdd := lastAdd + 1;
      if SpacingMet(lastAdd, gradient) && d.fence == 0 {
        var fence := NewFence(cvW, cvH, d.fenceKind);
        fence := Fence(fence.kind, fence.x, fence.y, fence.width, fence.height, fence.xSpeed + gradient);
        obstacles := obstacles + [fence];
        lastAdd := 0;
      } else if SpacingMet(lastAdd, gradient) && d.tree == 0 {
        var tree := NewTree(cvW, cvH, d.treeKind);
        tree := Tree(tree.kind, tree.x, tree.y, tree.width, tree.height, tree.xSpeed + gradient);
        obstacles := obstacles + [tree];
        lastAdd := 0;
      } else if gradient >= 0.5 && SpacingMet(lastAdd, gradient) && d.ball == 0 {
        var ball := NewPinball(cvW, cvH, d.ballRandom);
        ball := Pinball(ball.cvH, ball.radius, ball.width, ball.x, ball.y, ball.xSpeed + gradient,
                        ball.ySpeed, ball.gravity + gradient * 0.06, ball.attenuation);
        obstacles := obstacles + [ball];
        lastAdd := 0;
      }
    }

    /** `unit_loop`: spawn, advance everything, drop what has left the
      * screen, and report whether some obstacle now touches the character. */
    method UnitLoop(gradient: real, d: Draws) returns (hit: bool)
      requires Valid() && d.Valid()
      modifies this`obstacles, this`lastAdd, player`y, player`ySpeed, player`isJumping
      ensures Valid()
      // the character is never pruned: it stays at x = 200, a full width inside the left edge
      ensures player.x == 200.0 && player.x >= -player.width
      ensures player.State() == Fall(old(player.State()), player.Ground(), player.height, player.gravity, player.maxSpeed)
      ensures var s := Spawned(old(lastAdd) + 1, gradient, d, cvW, cvH);
              && obstacles == Survivors(AdvanceAll(old(obstacles) + AsSeq(s)))
              && lastAdd == (if s.Some? then 0 else old(lastAdd) + 1)
      ensures hit <==> Colliding()
    {
      AddBarrier(gradient, d);
      player.ToNext();
      obstacles := AdvanceAndPrune(obstacles);
      hit := DetectCollision(player.Shape(), obstacles);
    }

    /** `cheat`: toggle the character's infinite jump. */
    method Cheat()
      modifies player`isCheated
      ensures player.isCheated == !old(player.isCheated)
    {
      player.isCheated := !player.isCheated;
    }
  }
}
