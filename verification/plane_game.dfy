/** The plane game: a smaller shooter on a `width` x 500 canvas. One enemy
    arrives every second, the plane fires on its own every 200 ms of frame
    time, each bullet that meets an enemy scores 10, and the first enemy that
    reaches the plane ends the game. The frame timestamp `time` and the stream
    `rnd` of `Math.random()` values are inputs. */
module PlaneGame {
  import opened Seqs
  import opened Geometry

  /** A value `Math.random()` can return. */
  type Unit = r: real | 0.0 <= r < 1.0

  const CanvasHeight: real := 500.0
  const PlaneSize: real := 40.0
  const EnemySize: real := 40.0
  const SpawnPeriod: real := 1000.0
  const FirePeriod: real := 200.0
  const ShotSpeed: real := 7.0
  const KillScore: int := 10

  /** A moving object of the game (the plane, a bullet or an enemy); the emoji
      it is drawn with is not kept. */
  datatype Sprite = Sprite(x: real, y: real, width: real, height: real, speed: real)
  {
    function Hitbox(): Box { Box(x, y, width, height) }
  }

  /** The shape every bullet has: 10 x 20, climbing 7 px per frame. */
  predicate IsShot(b: Sprite) { b.width == 10.0 && b.height == 20.0 && b.speed == ShotSpeed }

  /** The shape every enemy has: 40 x 40, falling between 2 and 4 px per frame. */
  predicate IsFoe(e: Sprite) { e.width == EnemySize && e.height == EnemySize && 2.0 <= e.speed < 4.0 }

  /** The enemy that spawns from a horizontal roll and a speed roll. */
  function Arrival(width: real, xRoll: Unit, speedRoll: Unit): (e: Sprite)
    ensures IsFoe(e) && e.y == -EnemySize
  {
    Sprite(xRoll * (width - EnemySize), -40.0, EnemySize, EnemySize, 2.0 + speedRoll * 2.0)
  }

  /** The bullet fired from the middle of the plane's nose. */
  function Shot(plane: Box): (b: Sprite)
    ensures IsShot(b) && b.y == plane.y && b.x + b.width / 2.0 == plane.x + plane.width / 2.0
  {
    Sprite(plane.x + plane.width / 2.0 - 5.0, plane.y, 10.0, 20.0, ShotSpeed)
  }

  /** Auto-fire: the frame's time crossed a multiple of 200 ms since the last frame. */
  predicate Fires(time: real, delta: real)
  {
    (time / 200.0).Floor > ((time - delta) / 200.0).Floor
  }

  /** The floor of a real below the integer k is below k. */
  lemma FloorBelow(x: real, k: int)
    requires x < k as real
    ensures x.Floor < k
  {
  }

  /** The floor of a real at or above the integer k is at least k. */
  lemma FloorAbove(x: real, k: int)
    requires k as real <= x
    ensures k <= x.Floor
  {
  }

  /** A frame that crosses a multiple k of 200 ms fires. */
  lemma FiresWhenCrossing(time: real, delta: real, k: int)
    requires time - delta < (k as real) * 200.0 <= time
    ensures Fires(time, delta)
  {
    FloorBelow((time - delta) / 200.0, k);
    FloorAbove(time / 200.0, k);
  }

  /** A frame whose start and end lie in the same 200 ms slot does not fire. */
  lemma QuietInsideSlot(time: real, delta: real, k: int)
    requires (k as real) * 200.0 <= time - delta && time < ((k + 1) as real) * 200.0
    ensures !Fires(time, delta)
  {
    FloorAbove((time - delta) / 200.0, k);
    FloorBelow(time / 200.0, k + 1);
  }

  /** A bullet is kept while it is below y = -20. */
  predicate Live(b: Sprite) { b.y > -20.0 }

  /** The frame's bullet step: the bullets still live, each moved up by its speed. */
  function Climbed(bs: seq<Sprite>): (r: seq<Sprite>)
    ensures |r| <= |bs|
    ensures forall b :: b in r ==> exists c :: c in bs && Live(c) && b == c.(y := c.y - c.speed)
  {
    var kept := Filter(bs, Live);
    seq(|kept|, i requires 0 <= i < |kept| => kept[i].(y := kept[i].y - kept[i].speed))
  }

  /** Among bullets of the one bullet shape, a bullet survives the step
      exactly when it was live, and then it sits 7 px higher. */
  lemma ClimbedExact(bs: seq<Sprite>, b: Sprite)
    requires forall c :: c in bs ==> IsShot(c)
    requires b in bs
    ensures b.(y := b.y - ShotSpeed) in Climbed(bs) <==> Live(b)
  {
    var kept := Filter(bs, Live);
    if Live(b) {
      FilterComplete(bs, Live, b);
      var i :| 0 <= i < |kept| && kept[i] == b;
      assert Climbed(bs)[i] == b.(y := b.y - ShotSpeed);
    }
  }

  /** The bullet step keeps the bullet shape. */
  lemma ClimbedShapes(bs: seq<Sprite>)
    requires forall c :: c in bs ==> IsShot(c)
    ensures forall c :: c in Climbed(bs) ==> IsShot(c)
  {
  }

  /** An enemy's frame of motion. */
  function Fly(e: Sprite): Sprite { e.(y := e.y + e.speed) }

  function Below(height: real): Sprite -> bool { (e: Sprite) => e.y < height }

  /** The state the enemy pass threads through: both arrays, the score, and
      every score reported to `onGameOver` during the pass. */
  datatype Pass = Pass(enemies: seq<Sprite>, bullets: seq<Sprite>, score: int, reports: seq<int>)

  /** The inner `forEach` of the enemy pass: the bullets from index b on (n
      is their number when the loop started) against the enemy e visited at
      index eIdx. Every overlap splices the enemy array at eIdx, whatever sits
      there now, splices the bullet, and scores 10. */
  function Shots(e: Sprite, eIdx: nat, p: Pass, b: nat, n: nat): (r: Pass)
    ensures r.score == p.score + KillScore * (|p.bullets| - |r.bullets|)
    ensures |r.bullets| <= |p.bullets| && |r.enemies| <= |p.enemies|
    ensures r.reports == p.reports
    decreases n - b
  {
    if n <= b || |p.bullets| <= b then p
    else if Overlaps(p.bullets[b].Hitbox(), e.Hitbox()) then
      Shots(e, eIdx, Pass(RemoveAt(p.enemies, eIdx), RemoveAt(p.bullets, b), p.score + KillScore, p.reports), b + 1, n)
    else Shots(e, eIdx, p, b + 1, n)
  }

  /** The outer `forEach` of the enemy pass from index k on (n is the number
      of enemies when the loop started): the visited enemy falls, reports the
      current score when it overlaps the plane, then meets the bullets. */
  function Encounters(p: Pass, k: nat, n: nat, plane: Box): (r: Pass)
    ensures r.score == p.score + KillScore * (|p.bullets| - |r.bullets|)
    ensures |r.bullets| <= |p.bullets| && |r.enemies| <= |p.enemies|
    ensures |p.reports| <= |r.reports| && r.reports[..|p.reports|] == p.reports
    decreases n - k
  {
    if n <= k || |p.enemies| <= k then p
    else
      var e := Fly(p.enemies[k]);
      var crash := if Overlaps(e.Hitbox(), plane) then [p.score] else [];
      var q := Pass(p.enemies[k := e], p.bullets, p.score, p.reports + crash);
      var r := Encounters(Shots(e, k, q, 0, |q.bullets|), k + 1, n, plane);
      assert r.reports[..|q.reports|][..|p.reports|] == p.reports;
      r
  }

  /** Every score the pass reports lies between the score before the pass and
      the score after it: the report carries the kills made so far. */
  lemma {:induction false} ReportsBetween(p: Pass, k: nat, n: nat, plane: Box)
    ensures forall i :: |p.reports| <= i < |Encounters(p, k, n, plane).reports| ==>
      p.score <= Encounters(p, k, n, plane).reports[i] <= Encounters(p, k, n, plane).score
    decreases n - k
  {
    if k < n && k < |p.enemies| {
      var e := Fly(p.enemies[k]);
      var crash := if Overlaps(e.Hitbox(), plane) then [p.score] else [];
      var q := Pass(p.enemies[k := e], p.bullets, p.score, p.reports + crash);
      var q' := Shots(e, k, q, 0, |q.bullets|);
      var r := Encounters(q', k + 1, n, plane);
      ReportsBetween(q', k + 1, n, plane);
      assert p.score <= q'.score <= r.score;
      forall i | |p.reports| <= i < |r.reports|
        ensures p.score <= r.reports[i] <= r.score
      {
        if i < |q'.reports| {
          assert r.reports[i] == r.reports[..|q'.reports|][i] == q'.reports[i] == p.score;
        } else {
          assert q'.score <= r.reports[i] <= r.score;
        }
      }
    }
  }

  /** An enemy that reaches the plane ends the game: when the enemy the pass
      visits at step k overlaps the plane after its fall, the pass reports
      the score it had at that step. */
  lemma FirstCrashReported(p: Pass, k: nat, n: nat, plane: Box)
    requires k < n && k < |p.enemies| && Overlaps(Fly(p.enemies[k]).Hitbox(), plane)
    ensures var r := Encounters(p, k, n, plane);
      |r.reports| > |p.reports| && r.reports[|p.reports|] == p.score
  {
    var e := Fly(p.enemies[k]);
    var q := Pass(p.enemies[k := e], p.bullets, p.score, p.reports + [p.score]);
    var r := Encounters(Shots(e, k, q, 0, |q.bullets|), k + 1, n, plane);
    assert r.reports[..|q.reports|][|p.reports|] == p.score;
  }

  /** Without any bullet over any fallen enemy and without a crash, the pass
      only moves the enemies down. */
  lemma {:induction false} EncountersQuiet(p: Pass, k: nat, plane: Box)
    requires k <= |p.enemies|
    requires forall i, j :: k <= i < |p.enemies| && 0 <= j < |p.bullets| ==>
      !Overlaps(p.bullets[j].Hitbox(), Fly(p.enemies[i]).Hitbox())
    requires forall i :: k <= i < |p.enemies| ==> !Overlaps(Fly(p.enemies[i]).Hitbox(), plane)
    ensures var r := Encounters(p, k, |p.enemies|, plane);
      r.bullets == p.bullets && r.score == p.score && r.reports == p.reports &&
      |r.enemies| == |p.enemies| && r.enemies[..k] == p.enemies[..k] &&
      forall i :: k <= i < |p.enemies| ==> r.enemies[i] == Fly(p.enemies[i])
    decreases |p.enemies| - k
  {
    if k < |p.enemies| {
      var e := Fly(p.enemies[k]);
      var q := Pass(p.enemies[k := e], p.bullets, p.score, p.reports);
      assert p.reports + [] == p.reports;
      ShotsMiss(e, k, q, 0);
      EncountersQuiet(q, k + 1, plane);
      assert q.enemies[..k] == p.enemies[..k];
    }
  }

  /** Bullets that all miss the enemy leave the pass untouched. */
  lemma {:induction false} ShotsMiss(e: Sprite, eIdx: nat, p: Pass, b: nat)
    requires forall j :: 0 <= j < |p.bullets| ==> !Overlaps(p.bullets[j].Hitbox(), e.Hitbox())
    ensures Shots(e, eIdx, p, b, |p.bullets|) == p
    decreases |p.bullets| - b
  {
    if b < |p.bullets| {
      ShotsMiss(e, eIdx, p, b + 1);
    }
  }

  /** Predicates over a pass: every enemy and every bullet has its shape. */
  predicate Shaped(p: Pass)
  {
    (forall e :: e in p.enemies ==> IsFoe(e)) && (forall b :: b in p.bullets ==> IsShot(b))
  }

  /** The inner loop only removes, so it keeps every shape. */
  lemma {:induction false} ShotsShapes(e: Sprite, eIdx: nat, p: Pass, b: nat, n: nat)
    requires Shaped(p)
    ensures Shaped(Shots(e, eIdx, p, b, n))
    decreases n - b
  {
    if b < n && b < |p.bullets| {
      if Overlaps(p.bullets[b].Hitbox(), e.Hitbox()) {
        ShotsShapes(e, eIdx, Pass(RemoveAt(p.enemies, eIdx), RemoveAt(p.bullets, b), p.score + KillScore, p.reports), b + 1, n);
      } else {
        ShotsShapes(e, eIdx, p, b + 1, n);
      }
    }
  }

  /** The enemy pass removes and moves down, so it keeps every shape: no
      enemy or bullet is made up. */
  lemma {:induction false} EncountersShapes(p: Pass, k: nat, n: nat, plane: Box)
    requires Shaped(p)
    ensures Shaped(Encounters(p, k, n, plane))
    decreases n - k
  {
    if k < n && k < |p.enemies| {
      var e := Fly(p.enemies[k]);
      var crash := if Overlaps(e.Hitbox(), plane) then [p.score] else [];
      var q := Pass(p.enemies[k := e], p.bullets, p.score, p.reports + crash);
      assert IsFoe(p.enemies[k]) && IsFoe(e);
      assert forall x :: x in q.enemies ==> x in p.enemies || x == e;
      ShotsShapes(e, k, q, 0, |q.bullets|);
      EncountersShapes(Shots(e, k, q, 0, |q.bullets|), k + 1, n, plane);
    }
  }

  /** The enemy pass over local copies of the arrays: the two nested loops. */
  method EncounterLoop(es: seq<Sprite>, bs: seq<Sprite>, score: int, plane: Box) returns (r: Pass)
    ensures r == Encounters(Pass(es, bs, score, []), 0, |es|, plane)
  {
    var start := Pass(es, bs, score, []);
    r := start;
    var n := |es|;
    var k := 0;
    while k < n
      invariant 0 <= k <= n
      invariant Encounters(r, k, n, plane) == Encounters(start, 0, n, plane)
    {
      if k < |r.enemies| {
        var e := Fly(r.enemies[k]);
        var crash := if Overlaps(e.Hitbox(), plane) then [r.score] else [];
        var q := Pass(r.enemies[k := e], r.bullets, r.score, r.reports + crash);
        r := q;
        var nb := |q.bullets|;
        var b := 0;
        while b < nb
          invariant 0 <= b <= nb
          invariant Shots(e, k, r, b, nb) == Shots(e, k, q, 0, nb)
        {
          if b < |r.bullets| && Overlaps(r.bullets[b].Hitbox(), e.Hitbox()) {
            r := Pass(RemoveAt(r.enemies, k), RemoveAt(r.bullets, b), r.score + KillScore, r.reports);
          }
          b := b + 1;
        }
      }
      k := k + 1;
    }
  }

  class Session {
    const width: real
    const height: real
    const rnd: nat -> Unit      // Math.random(): the n-th value drawn
    var draws: nat

    var score: int
    var active: bool
    var player: Box
    var bullets: seq<Sprite>
    var enemies: seq<Sprite>
    var lastTime: real
    var spawnTimer: real
    var reports: seq<int>       // every score handed to onGameOver, oldest first

    ghost predicate Valid()
      reads this
    {
      0 <= score && player.width == PlaneSize && player.height == PlaneSize &&
      (forall b :: b in bullets ==> IsShot(b)) && (forall e :: e in enemies ==> IsFoe(e))
    }

    /** Mounting: the canvas takes its parent's width (350 when that is 0)
        and a height of 500, then the game is initialised. */
    constructor (clientWidth: nat, rnd: nat -> Unit)
      ensures Valid() && !active && reports == [] && draws == 0 && this.rnd == rnd
      ensures width == (if clientWidth == 0 then 350.0 else clientWidth as real) && height == CanvasHeight
      ensures player == Box(width / 2.0 - 20.0, height - 80.0, PlaneSize, PlaneSize)
      ensures bullets == [] && enemies == [] && score == 0
    {
      width := if clientWidth == 0 then 350.0 else clientWidth as real;
      height := CanvasHeight;
      this.rnd := rnd;
      draws := 0;
      active := false;
      lastTime, spawnTimer := 0.0, 0.0;
      reports := [];
      new;
      InitGame();
    }

    /** `initGame`: the plane centred 80 px above the bottom edge, no
        bullets, no enemies, score 0. */
    method InitGame()
      modifies this`player, this`bullets, this`enemies, this`score
      ensures player == Box(width / 2.0 - 20.0, height - 80.0, PlaneSize, PlaneSize)
      ensures bullets == [] && enemies == [] && score == 0 && Valid()
    {
      player := Box(width / 2.0 - 20.0, height - 80.0, PlaneSize, PlaneSize);
      bullets := [];
      enemies := [];
      score := 0;
    }

    /** `startGame`: a fresh run with the frame clock at `now`. */
    method StartGame(now: real)
      modifies this`player, this`bullets, this`enemies, this`score, this`active, this`lastTime
      ensures player == Box(width / 2.0 - 20.0, height - 80.0, PlaneSize, PlaneSize)
      ensures bullets == [] && enemies == [] && score == 0 && Valid()
      ensures active && lastTime == now
    {
      InitGame();
      active := true;
      lastTime := now;
    }

    /** `handleTouch`: while running, the touch's x centres the plane,
        clamped to the canvas. */
    method HandleTouch(clientX: real, rectLeft: real)
      requires Valid()
      modifies this`player
      ensures Valid()
      ensures !active ==> player == old(player)
      ensures active ==> player == old(player).(x := Clamp(clientX - rectLeft - 20.0, 0.0, width - PlaneSize))
      ensures active && PlaneSize <= width ==> 0.0 <= player.x <= width - PlaneSize
    {
      if !active {
        return;
      }
      var x := clientX - rectLeft;
      player := player.(x := Clamp(x - player.width / 2.0, 0.0, width - player.width));
    }

    /** The spawn step: the accumulator grows by the frame's delta; past
        1000 ms one enemy arrives just above the canvas (three values are
        drawn: position, speed and the unused emoji) and it restarts at 0. */
    method Spawn(delta: real)
      requires Valid()
      modifies this`spawnTimer, this`enemies, this`draws
      ensures Valid()
      ensures old(spawnTimer) + delta > SpawnPeriod ==>
        spawnTimer == 0.0 && draws == old(draws) + 3 &&
        enemies == old(enemies) + [Arrival(width, rnd(old(draws)), rnd(old(draws) + 1))]
      ensures !(old(spawnTimer) + delta > SpawnPeriod) ==>
        spawnTimer == old(spawnTimer) + delta && enemies == old(enemies) && draws == old(draws)
    {
      spawnTimer := spawnTimer + delta;
      if spawnTimer > SpawnPeriod {
        enemies := enemies + [Arrival(width, rnd(draws), rnd(draws + 1))];
        draws := draws + 3;
        spawnTimer := 0.0;
      }
    }

    /** Auto-fire: one bullet from the nose when the frame crossed a 200 ms boundary. */
    method AutoFire(time: real, delta: real)
      requires Valid()
      modifies this`bullets
      ensures Valid()
      ensures bullets == old(bullets) + (if Fires(time, delta) then [Shot(player)] else [])
    {
      if Fires(time, delta) {
        bullets := bullets + [Shot(player)];
      }
    }

    /** The enemy pass of a frame (see `Encounters`): kills score, and any
        enemy reaching the plane stops the game and reports the score. */
    method Collide()
      requires Valid()
      modifies this`enemies, this`bullets, this`score, this`active, this`reports
      ensures
        var r := Encounters(Pass(old(enemies), old(bullets), old(score), []), 0, |old(enemies)|, player);
        enemies == r.enemies && bullets == r.bullets && score == r.score &&
        reports == old(reports) + r.reports && active == (old(active) && r.reports == [])
      ensures score == old(score) + KillScore * (|old(bullets)| - |bullets|)
      ensures forall i :: |old(reports)| <= i < |reports| ==> old(score) <= reports[i] <= score
      ensures Valid()
    {
      ghost var p := Pass(enemies, bullets, score, []);
      EncountersShapes(p, 0, |enemies|, player);
      ReportsBetween(p, 0, |enemies|, player);
      var r := EncounterLoop(enemies, bullets, score, player);
      enemies, bullets, score := r.enemies, r.bullets, r.score;
      if r.reports != [] {
        active := false;
      }
      reports := reports + r.reports;
    }

    /** `update`: one animation frame of a running game (drawing left out). */
    method Update(time: real)
      requires Valid()
      modifies this
      ensures !old(active) ==> unchanged(this)
      ensures Valid()
      ensures active ==> old(active)
      ensures old(active) ==> lastTime == time && old(score) <= score
      ensures old(active) ==> forall e :: e in enemies ==> e.y < height
      ensures |old(reports)| <= |reports| && reports[..|old(reports)|] == old(reports)
      ensures forall i :: |old(reports)| <= i < |reports| ==> old(score) <= reports[i] <= score
    {
      if !active {
        return;
      }
      var delta := time - lastTime;
      lastTime := time;
      Spawn(delta);
      AutoFire(time, delta);
      ClimbedShapes(bullets);
      bullets := Climbed(bullets);
      Collide();
      enemies := Filter(enemies, Below(height));
    }
  }
}
