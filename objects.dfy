/**
 * The entities of the runner: the player character, the welcome-screen
 * character, and the three obstacle kinds (Tree, Fence, Pinball) with their
 * motion rules and collision tests. Coordinates are canvas coordinates: x
 * grows to the right, y grows downwards, so "above" means a smaller y.
 */
module Objects {

  // ---------------------------------------------------------------------
  // Geometry shared by the collision tests
  // ---------------------------------------------------------------------

  function Sq(a: real): real { a * a }

  /** The closed intervals [lo1, hi1] and [lo2, hi2] have a point in common. */
  predicate Overlap(lo1: real, hi1: real, lo2: real, hi2: real) {
    lo1 <= hi2 && lo2 <= hi1
  }

  /** The point of [lo, hi] nearest to v. */
  function Clamp(v: real, lo: real, hi: real): (r: real)
    requires lo <= hi
    ensures lo <= r <= hi
    ensures lo <= v <= hi ==> r == v
  {
    if v < lo then lo else if v > hi then hi else v
  }

  /** The rectangle a character occupies, as the collision tests read it. */
  datatype Body = Body(x: real, y: real, width: real, height: real)

  /** A rectangle whose sides are not negative. */
  predicate Proper(c: Body) {
    0.0 <= c.width && 0.0 <= c.height
  }

  // ---------------------------------------------------------------------
  // The player character (UserCharacter)
  // ---------------------------------------------------------------------

  /** The part of a character's state that `to_next` and `jump` change. */
  datatype Motion = Motion(y: real, ySpeed: real, jumping: bool)

  /** Where one step puts the character before the ground test: it moves by
    * ySpeed unless that would take it above the ceiling line -height. */
  function Lifted(m: Motion, height: real): (y: real)
    ensures y == m.y || y == m.y + m.ySpeed
    ensures -height <= m.y ==> -height <= y
  {
    if m.y + m.ySpeed >= -height then m.y + m.ySpeed else m.y
  }

  /** One vertical step of a character: move (with the ceiling rule), then
    * land on the ground line, or pick up gravity while in the air without
    * letting the downward speed pass maxSpeed, or be put back on the ground
    * after sinking below it. */
  function Fall(m: Motion, ground: real, height: real, gravity: real, maxSpeed: real): (r: Motion)
    // the character never ends a step below the ground line
    ensures r.y <= ground
    // a step that reaches or passes the ground line lands: on the ground, still, not jumping
    ensures Lifted(m, height) >= ground ==> r == Motion(ground, 0.0, false)
    // a step that stays in the air keeps the position it moved to and the jump state
    ensures Lifted(m, height) < ground ==> r.y == Lifted(m, height) && r.jumping == m.jumping
    // standing on the ground always means still and not jumping
    ensures r.y == ground ==> r.ySpeed == 0.0 && !r.jumping
    // the ceiling line is never crossed
    ensures -height <= m.y && -height <= ground ==> -height <= r.y
    // gravity never pushes the vertical speed past maxSpeed
    ensures m.ySpeed <= maxSpeed && 0.0 <= maxSpeed ==> r.ySpeed <= maxSpeed
    // in the air, gravity only ever adds downward speed
    ensures r.y < ground && 0.0 <= gravity ==> m.ySpeed <= r.ySpeed <= m.ySpeed + gravity
  {
    var y := Lifted(m, height);
    if y == ground then Motion(y, 0.0, false)
    else if y < ground then
      Motion(y, if m.ySpeed + gravity <= maxSpeed then m.ySpeed + gravity else m.ySpeed, m.jumping)
    else Motion(ground, 0.0, false)
  }

  /** A jump request: honoured when cheating or not already jumping, and
    * then an upward speed of maxSpeed. */
  function Impulse(m: Motion, cheated: bool, maxSpeed: real): (r: Motion)
    ensures r.y == m.y
    ensures !cheated && m.jumping ==> r == m
    ensures cheated || !m.jumping ==> r.jumping && r.ySpeed == -maxSpeed
  {
    if cheated || !m.jumping then Motion(m.y, -maxSpeed, true) else m
  }

  /** Asking to jump again right after a jump changes nothing more, with or
    * without cheating. */
  lemma ImpulseIdempotent(m: Motion, cheated: bool, maxSpeed: real)
    ensures Impulse(Impulse(m, cheated, maxSpeed), cheated, maxSpeed) == Impulse(m, cheated, maxSpeed)
  {
  }

  /** The character the user controls. */
  class UserCharacter {
    const cvW: real
    const cvH: real
    const width: real := 80.0
    const height: real := 110.0
    const gravity: real := 0.9
    const maxSpeed: real := 24.3
    var x: real
    var y: real
    var ySpeed: real
    var isJumping: bool
    var isCheated: bool

    constructor (cvW: real, cvH: real, x: real, y: real)
      ensures this.cvW == cvW && this.cvH == cvH && this.x == x && this.y == y
      ensures ySpeed == 0.0 && !isJumping && !isCheated
    {
      this.cvW, this.cvH := cvW, cvH;
      this.x, this.y := x, y;
      ySpeed := 0.0;
      isJumping, isCheated := false, false;
    }

    /** The line the character's centre stands on: 5 above its resting height. */
    function Ground(): (g: real)
      // on a canvas of non-negative height the ground lies below the ceiling line
      ensures 0.0 <= cvH ==> -height <= g
      // standing on it, the character's feet are 5 above the canvas bottom
      ensures g + height / 2.0 == cvH - 5.0
    {
      cvH - height / 2.0 - 5.0
    }

    function State(): Motion
      reads this
    {
      Motion(y, ySpeed, isJumping)
    }

    function Shape(): Body
      reads this
    {
      Body(x, y, width, height)
    }

    method ToNext()
      modifies this`y, this`ySpeed, this`isJumping
      ensures State() == Fall(old(State()), Ground(), height, gravity, maxSpeed)
    {
      var ground := Ground();
      y := y + (if y + ySpeed >= -height then ySpeed else 0.0);
      if y == ground {
        ySpeed := 0.0;
        isJumping := false;
      } else if y < ground {
        ySpeed := ySpeed + (if ySpeed + gravity <= maxSpeed then gravity else 0.0);
      } else {
        // below the ground, which a step never leaves it: put it back
        y := ground;
        ySpeed := 0.0;
        isJumping := false;
      }
    }

    method Jump()
      modifies this`ySpeed, this`isJumping
      ensures State() == Impulse(old(State()), isCheated, maxSpeed)
    {
      if isCheated || !isJumping {
        isJumping := true;
        ySpeed := -maxSpeed;
      }
    }
  }

  /** The character running across the menu screen: a user character that
    * also moves horizontally by xSpeed each step. */
  class WelcomeCharacter {
    const runner: UserCharacter
    var xSpeed: real

    constructor (cvW: real, cvH: real, x: real, y: real)
      ensures fresh(runner)
      ensures runner.cvW == cvW && runner.cvH == cvH && runner.x == x && runner.y == y
      ensures runner.ySpeed == 0.0 && !runner.isJumping && !runner.isCheated
      ensures xSpeed == 0.0
    {
      runner := new UserCharacter(cvW, cvH, x, y);
      xSpeed := 0.0;
    }

    method ToNext()
      modifies runner`x, runner`y, runner`ySpeed, runner`isJumping
      ensures runner.x == old(runner.x) + xSpeed
      ensures runner.State() == Fall(old(runner.State()), runner.Ground(), runner.height, runner.gravity, runner.maxSpeed)
    {
      runner.x := runner.x + xSpeed;
      runner.ToNext();
    }
  }

  // ---------------------------------------------------------------------
  // Obstacles
  // ---------------------------------------------------------------------

  type Positive = r: real | r > 0.0 witness 1.0

  /** The three obstacle kinds. `kind` is the index of the drawn sprite in
    * the kind's table; a Pinball also keeps the canvas height (its floor),
    * its own gravity and the divisor applied to its speed on a bounce. */
  datatype Obstacle =
    | Tree(kind: nat, x: real, y: real, width: real, height: real, xSpeed: real)
    | Fence(kind: nat, x: real, y: real, width: real, height: real, xSpeed: real)
    | Pinball(cvH: real, radius: real, width: real, x: real, y: real,
              xSpeed: real, ySpeed: real, gravity: real, attenuation: Positive)

  const TreeKinds: nat := 4
  const FenceKinds: nat := 2

  function TreeWidth(kind: nat): real requires kind < TreeKinds {
    [82.0, 82.0, 94.0 - 8.0, 101.0 - 16.0][kind]
  }
  function TreeHeight(kind: nat): real requires kind < TreeKinds {
    [249.0, 249.0, 204.0, 259.0][kind]
  }
  function FenceWidth(kind: nat): real requires kind < FenceKinds {
    [104.0, 120.0][kind]
  }
  function FenceHeight(kind: nat): real requires kind < FenceKinds {
    [77.0, 121.0][kind]
  }

  /** A new Tree of the drawn kind: its left edge on the canvas's right edge,
    * its foot on the canvas's bottom, moving at base speed 7. */
  function NewTree(cvW: real, cvH: real, kind: nat): (t: Obstacle)
    requires kind < TreeKinds
    ensures t.Tree? && t.kind == kind
    ensures t.width == TreeWidth(kind) && t.height == TreeHeight(kind)
    ensures t.x - t.width / 2.0 == cvW && t.y + t.height / 2.0 == cvH
    ensures t.xSpeed == 7.0
  {
    var w, h := TreeWidth(kind), TreeHeight(kind);
    Tree(kind, cvW + w / 2.0, cvH - h / 2.0, w, h, 7.0)
  }

  /** A new Fence of the drawn kind, placed like a Tree. */
  function NewFence(cvW: real, cvH: real, kind: nat): (f: Obstacle)
    requires kind < FenceKinds
    ensures f.Fence? && f.kind == kind
    ensures f.width == FenceWidth(kind) && f.height == FenceHeight(kind)
    ensures f.x - f.width / 2.0 == cvW && f.y + f.height / 2.0 == cvH
    ensures f.xSpeed == 7.0
  {
    var w, h := FenceWidth(kind), FenceHeight(kind);
    Fence(kind, cvW + w / 2.0, cvH - h / 2.0, w, h, 7.0)
  }

  /** The gravity of a Pinball before the difficulty bonus, from the
    * uniform draw `u` in [0, 1). */
  function BaseGravity(u: real): real {
    0.1 + (u / 3.0) * 2.0
  }

  /** A new Pinball of radius 20, 400 above the canvas bottom, at rest
    * vertically; `u` is the uniform draw in [0, 1) that fixes its gravity. */
  function NewPinball(cvW: real, cvH: real, u: real): (b: Obstacle)
    requires 0.0 <= u < 1.0
    ensures b.Pinball? && b.cvH == cvH
    ensures b.radius == 20.0 && b.width == 2.0 * b.radius
    ensures b.x - b.width / 2.0 == cvW && b.y == cvH - 400.0
    ensures b.xSpeed == 7.0 && b.ySpeed == 0.0 && b.attenuation == 1.0
    ensures b.gravity == BaseGravity(u) && 0.1 <= b.gravity < 0.1 + 2.0 / 3.0
  {
    Pinball(cvH, 20.0, 20.0 * 2.0, cvW + 20.0, cvH - 400.0, 7.0, 0.0, BaseGravity(u), 1.0)
  }

  /** The lowest position of a Pinball's centre. */
  function BallFloor(b: Obstacle): real
    requires b.Pinball?
  {
    b.cvH - b.radius
  }

  /** The obstacle `o` moved horizontally to `x`, all else equal. */
  function AtX(o: Obstacle, x: real): Obstacle {
    match o
    case Tree(kind, _, y, width, height, xSpeed) => Tree(kind, x, y, width, height, xSpeed)
    case Fence(kind, _, y, width, height, xSpeed) => Fence(kind, x, y, width, height, xSpeed)
    case Pinball(cvH, radius, width, _, y, xSpeed, ySpeed, gravity, attenuation) =>
      Pinball(cvH, radius, width, x, y, xSpeed, ySpeed, gravity, attenuation)
  }

  /** One step of an obstacle (`to_next`). */
  function Advance(o: Obstacle): (r: Obstacle)
    // every kind moves left by exactly its speed, so strictly left when the speed is positive
    ensures r.x == o.x - o.xSpeed
    ensures 0.0 < o.xSpeed ==> r.x < o.x
    // Trees and Fences change nothing but x
    ensures !o.Pinball? ==> r == AtX(o, r.x)
    // a Pinball changes only x, y and its vertical speed, and never ends below its floor
    ensures o.Pinball? ==> r.Pinball? && r == Pinball(o.cvH, o.radius, o.width, r.x, r.y, o.xSpeed, r.ySpeed, o.gravity, o.attenuation)
    ensures o.Pinball? ==> r.y <= BallFloor(o)
    // in free flight a Pinball picks up its gravity
    ensures o.Pinball? && o.y + o.ySpeed <= BallFloor(o) ==> r.ySpeed == o.ySpeed + o.gravity
    // a Pinball above its floor that would pass it bounces back upwards
    ensures o.Pinball? && o.y <= BallFloor(o) < o.y + o.ySpeed ==> r.ySpeed < 0.0
    // with attenuation 1 a bounce keeps the speed's magnitude
    ensures o.Pinball? && BallFloor(o) < o.y + o.ySpeed && o.attenuation == 1.0 ==> r.ySpeed == -o.ySpeed
  {
    match o
    case Tree(kind, x, y, width, height, xSpeed) => Tree(kind, x - xSpeed, y, width, height, xSpeed)
    case Fence(kind, x, y, width, height, xSpeed) => Fence(kind, x - xSpeed, y, width, height, xSpeed)
    case Pinball(cvH, radius, width, x, y, xSpeed, ySpeed, gravity, attenuation) =>
      var floor := cvH - radius;
      var ySpeed' := if y + ySpeed > floor then -ySpeed / attenuation else ySpeed + gravity;
      var y' := y + ySpeed';
      Pinball(cvH, radius, width, x - xSpeed, if y' > floor then floor else y', xSpeed, ySpeed', gravity, attenuation)
  }

  /** An obstacle is kept on the lane until it is a full width past the left edge. */
  predicate Retained(o: Obstacle)
    // only an obstacle wholly past the left edge is dropped
    ensures 0.0 <= o.width && !Retained(o) ==> o.x + o.width / 2.0 < 0.0
    // an obstacle whose centre is still on the canvas is kept
    ensures 0.0 <= o.width && 0.0 <= o.x ==> Retained(o)
  {
    o.x >= -o.width
  }

  // ---------------------------------------------------------------------
  // Collision tests
  // ---------------------------------------------------------------------

  /** The inset collision box of a Tree or Fence: `margin` in from each side,
    * 5 down from the top. */
  function BoxLeft(o: Obstacle, margin: real): real requires !o.Pinball? {
    o.x - o.width / 2.0 + margin
  }
  function BoxRight(o: Obstacle, margin: real): real requires !o.Pinball? {
    o.x + o.width / 2.0 - margin
  }
  function BoxTop(o: Obstacle): real requires !o.Pinball? {
    o.y - o.height / 2.0 + 5.0
  }

  /** The character's rectangle meets the half-open box below `top` between
    * `left` and `right`: the horizontal spans overlap and the character's
    * lower edge is at or below `top`. */
  predicate MeetsBox(c: Body, left: real, right: real, top: real) {
    Overlap(c.x - c.width / 2.0, c.x + c.width / 2.0, left, right) && c.y + c.height / 2.0 >= top
  }

  /** Tree test: a plain rectangle test at and below the top edge; above it,
    * within half the character's height, the corners are rounded off by
    * circles of radius half the character's width. */
  predicate TreeHits(t: Obstacle, c: Body)
    requires t.Tree?
    // a hit needs the character to meet the box inset 10 from each side
    ensures Proper(c) && TreeHits(t, c) ==> MeetsBox(c, BoxLeft(t, 10.0), BoxRight(t, 10.0), BoxTop(t))
    // at or below the top edge the test is exactly that box test
    ensures Proper(c) && c.y >= BoxTop(t) ==> (TreeHits(t, c) <==> MeetsBox(c, BoxLeft(t, 10.0), BoxRight(t, 10.0), BoxTop(t)))
    // straight above the trunk, touching the top edge is a hit
    ensures Proper(c) && BoxLeft(t, 10.0) <= c.x <= BoxRight(t, 10.0) && c.y + c.height / 2.0 >= BoxTop(t) ==> TreeHits(t, c)
  {
    var left, right, top := BoxLeft(t, 10.0), BoxRight(t, 10.0), BoxTop(t);
    if c.y >= top then
      c.x >= left - c.width / 2.0 && c.x <= right + c.width / 2.0
    else if c.y >= top - c.height / 2.0 && c.y <= top then
      c.x >= left - c.width / 2.0 && c.x <= right + c.width / 2.0 &&
      ((c.x >= left && c.x <= right) ||
       Sq(c.x - left) + Sq(c.y - top) <= Sq(c.width / 2.0) ||
       Sq(c.x - right) + Sq(c.y - top) <= Sq(c.width / 2.0))
    else false
  }

  /** Fence test: a strict rectangle test. */
  predicate FenceHits(f: Obstacle, c: Body)
    requires f.Fence?
    // exactly: the character's rectangle meets the box inset 3 from each side
    ensures FenceHits(f, c) <==> MeetsBox(c, BoxLeft(f, 3.0), BoxRight(f, 3.0), BoxTop(f))
  {
    var left, right, top := BoxLeft(f, 3.0), BoxRight(f, 3.0), BoxTop(f);
    c.x >= left - c.width / 2.0 && c.x <= right + c.width / 2.0 && c.y >= top - c.height / 2.0
  }

  /** The character's rectangle as a Pinball sees it: 15 in from the left,
    * 13 in from the right, 20 down from the top, 7 below the bottom. */
  function HitLeft(c: Body): real { c.x - c.width / 2.0 + 15.0 }
  function HitRight(c: Body): real { c.x + c.width / 2.0 - 13.0 }
  function HitTop(c: Body): real { c.y - c.height / 2.0 + 20.0 }
  function HitBottom(c: Body): real { c.y + c.height / 2.0 + 7.0 }

  /** Pinball test: the ball's circle against the character's inset
    * rectangle, with the top and bottom corners tested as circles. */
  predicate BallHits(b: Obstacle, c: Body)
    requires b.Pinball?
    // no hit while the ball is more than a radius above or below the rectangle
    ensures 0.0 <= b.radius && HitTop(c) <= HitBottom(c) && (b.y < HitTop(c) - b.radius || b.y > HitBottom(c) + b.radius) ==> !BallHits(b, c)
    // no hit while the ball is more than a radius left or right of it
    ensures b.x < HitLeft(c) - b.radius || b.x > HitRight(c) + b.radius ==> !BallHits(b, c)
    // a ball centred inside the rectangle always hits
    ensures 0.0 <= b.radius && HitLeft(c) <= b.x <= HitRight(c) && HitTop(c) <= b.y <= HitBottom(c) ==> BallHits(b, c)
  {
    var left, right, top, bottom := HitLeft(c), HitRight(c), HitTop(c), HitBottom(c);
    if b.y >= top && b.y <= bottom then
      b.x >= left - b.radius && b.x <= right + b.radius
    else if b.y >= top - b.radius && b.y <= top then
      b.x >= left - b.radius && b.x <= right + b.radius &&
      ((b.x >= left && b.x <= right) ||
       Sq(b.x - left) + Sq(b.y - top) <= Sq(b.radius) ||
       Sq(b.x - right) + Sq(b.y - top) <= Sq(b.radius))
    else if b.y >= bottom && b.y <= bottom + b.radius then
      b.x >= left - b.radius && b.x <= right + b.radius &&
      ((b.x >= left && b.x <= right) ||
       Sq(b.x - left) + Sq(b.y - bottom) <= Sq(b.radius) ||
       Sq(b.x - right) + Sq(b.y - bottom) <= Sq(b.radius))
    else false
  }

  /** `collision_detect`, dispatched on the obstacle's kind. */
  predicate Collides(o: Obstacle, c: Body)
    // a Tree or Fence only hits a character that meets its box inset 3 from
    // each side, so one whose feet stay above the box's top clears it
    ensures !o.Pinball? && Proper(c) && Collides(o, c) ==> MeetsBox(c, BoxLeft(o, 3.0), BoxRight(o, 3.0), BoxTop(o))
    // a Fence hits exactly then
    ensures o.Fence? ==> (Collides(o, c) <==> MeetsBox(c, BoxLeft(o, 3.0), BoxRight(o, 3.0), BoxTop(o)))
  {
    match o
    case Tree(_, _, _, _, _, _) => TreeHits(o, c)
    case Fence(_, _, _, _, _, _) => FenceHits(o, c)
    case Pinball(_, _, _, _, _, _, _, _, _) => BallHits(o, c)
  }

  /** Squared distance from the point (px, py) to the rectangle
    * [left, right] x [top, bottom]. */
  function DistSqToRect(px: real, py: real, left: real, right: real, top: real, bottom: real): real
    requires left <= right && top <= bottom
  {
    Sq(px - Clamp(px, left, right)) + Sq(py - Clamp(py, top, bottom))
  }

  lemma SqMono(a: real, b: real)
    requires 0.0 <= a <= b
    ensures Sq(a) <= Sq(b)
    ensures a < b ==> Sq(a) < Sq(b)
  {
    // a * a <= a * b <= b * b, the second step strict when a < b
    var aa, ab, bb := a * a, a * b, b * b;
    assert aa <= ab;
    assert ab <= bb && (a < b ==> ab < bb);
  }

  /** For non-negative a and r, a <= r exactly when a * a <= r * r. */
  lemma SqLe(a: real, r: real)
    requires 0.0 <= a && 0.0 <= r
    ensures Sq(a) <= Sq(r) <==> a <= r
  {
    if a <= r { SqMono(a, r); } else { SqMono(r, a); }
  }

  /** For a character at least 28 wide and 13 tall (so that the inset
    * rectangle is not empty), the Pinball test is the exact circle-rectangle
    * test: a hit exactly when the rectangle comes within one radius of the
    * ball's centre. */
  lemma {:induction false} BallHitsIsCircleRectTest(b: Obstacle, c: Body)
    requires b.Pinball? && 0.0 <= b.radius
    requires 28.0 <= c.width && 13.0 <= c.height
    ensures BallHits(b, c) <==>
            DistSqToRect(b.x, b.y, HitLeft(c), HitRight(c), HitTop(c), HitBottom(c)) <= Sq(b.radius)
  {
    var left, right, top, bottom, r := HitLeft(c), HitRight(c), HitTop(c), HitBottom(c), b.radius;
    var dx := b.x - Clamp(b.x, left, right);
    var dy := b.y - Clamp(b.y, top, bottom);
    assert Sq(dx) == Sq(if b.x < left then left - b.x else if b.x > right then b.x - right else 0.0);
    assert Sq(dy) == Sq(if b.y < top then top - b.y else if b.y > bottom then b.y - bottom else 0.0);
    // the horizontal distance to the rectangle is within a radius exactly when
    // the ball's centre lies in the span widened by one radius on each side
    if b.x < left { SqLe(left - b.x, r); } else if b.x > right { SqLe(b.x - right, r); }
    if b.y < top {
      SqLe(top - b.y, r);
      if b.x < left { SqMono(left - b.x, right - b.x); }
      if b.x > right { SqMono(b.x - right, b.x - left); }
      assert BallHits(b, c) <==> Sq(dx) + Sq(dy) <= Sq(r);
    } else if b.y > bottom {
      SqLe(b.y - bottom, r);
      if b.x < left { SqMono(left - b.x, right - b.x); }
      if b.x > right { SqMono(b.x - right, b.x - left); }
      assert BallHits(b, c) <==> Sq(dx) + Sq(dy) <= Sq(r);
    } else {
      assert BallHits(b, c) <==> Sq(dx) <= Sq(r);
    }
  }

  /** A Fence example: a character standing at x = 200
    * on the ground of a 900-high canvas hits a small Fence centred at the
    * same x, and misses it once the Fence is at x = 500. */
  lemma FenceExample()
    ensures var c := Body(200.0, 900.0 - 60.0, 80.0, 110.0);
            var f := NewFence(1600.0, 900.0, 0);
            Collides(Fence(f.kind, 200.0, f.y, f.width, f.height, f.xSpeed), c) &&
            !Collides(Fence(f.kind, 500.0, f.y, f.width, f.height, f.xSpeed), c)
  {
  }

  /** The Tree forgives grazes that the Fence-style box test would count.
    * With the kind-0 Tree as spawned on a 1600 x 900 lane, a character whose
    * corner is just over the Tree's top corner meets the box but misses the
    * rounded corner. */
  lemma TreeForgivesCornerGraze()
    ensures var t := NewTree(1600.0, 900.0, 0);
            var c := Body(1711.0, 606.0, 80.0, 110.0);
            MeetsBox(c, BoxLeft(t, 10.0), BoxRight(t, 10.0), BoxTop(t)) && !TreeHits(t, c)
  {
  }
}
