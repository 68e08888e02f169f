/** Star Ace, the dashboard's main canvas shooter.

    The player's ship sits near the bottom of a `width` x 600 field and fires
    upwards on its own; enemies descend in waves and fire back; destroyed
    enemies may drop one of four pickups. One call of `Session.Update` is one
    animation frame. Everything the browser supplies is an input: the frame
    timestamp `time`, the wall clock `now`, and the stream `rnd` of values that
    successive `Math.random()` calls return. */
module StarAce {
  import opened Seqs
  import opened Geometry
  import opened Particles

  /** A value `Math.random()` can return. */
  type Unit = r: real | 0.0 <= r < 1.0

  // ---------------------------------------------------------------------------
  // Configuration

  datatype Difficulty = Easy | Medium | Hard

  /** One row of the difficulty table. Intervals are in milliseconds, speeds in
      pixels per frame; the rates grow the enemy speed and shrink the spawn
      interval per millisecond of play. */
  datatype Tier = Tier(enemySpeed: real, enemySpawnInterval: real, enemyShootInterval: real,
                       speedIncreaseRate: real, spawnIncreaseRate: real,
                       enemyCountMultiplier: real)

  function TierOf(d: Difficulty): (t: Tier)
    ensures MinSpawnInterval < t.enemySpawnInterval
    ensures 0.0 < t.enemySpeed && 0.0 < t.enemyShootInterval
    ensures 0.0 < t.speedIncreaseRate && 0.0 < t.spawnIncreaseRate
    ensures 1.0 <= t.enemyCountMultiplier
  {
    match d
    case Easy => Tier(1.5, 2500.0, 3000.0, 0.0001, 0.00005, 1.0)
    case Medium => Tier(2.5, 1800.0, 2000.0, 0.0002, 0.0001, 1.5)
    case Hard => Tier(3.5, 1200.0, 1500.0, 0.0003, 0.00015, 2.0)
  }

  /** `a` is strictly harder than `b` on every axis of the table. */
  predicate Harder(a: Tier, b: Tier)
  {
    a.enemySpeed > b.enemySpeed && a.enemySpawnInterval < b.enemySpawnInterval &&
    a.enemyShootInterval < b.enemyShootInterval && a.speedIncreaseRate > b.speedIncreaseRate &&
    a.spawnIncreaseRate > b.spawnIncreaseRate && a.enemyCountMultiplier > b.enemyCountMultiplier
  }

  lemma TiersEscalate()
    ensures Harder(TierOf(Medium), TierOf(Easy)) && Harder(TierOf(Hard), TierOf(Medium))
  {
  }

  const BulletSpeed: real := 8.0
  const EnemyBulletSpeed: real := 5.0
  const PlayerHp: int := 3
  const InvincibleTime: real := 1500.0
  const PowerupDuration: real := 10000.0
  const ShieldDuration: real := 10000.0
  const PowerupDropRate: real := 0.25
  const MinSpawnInterval: real := 800.0
  const MaxWave: nat := 3
  const KillScore: int := 10
  const BurstSize: nat := 15
  const SparkLife: int := 30
  const PlayerSize: real := 40.0
  const EnemySize: real := 40.0
  const PickupSize: real := 30.0
  const PickupSpeed: real := 3.0

  // ---------------------------------------------------------------------------
  // Entities

  datatype Bullet = Bullet(x: real, y: real, width: real, height: real, speed: real)
  {
    function Hitbox(): Box { Box(x, y, width, height) }
  }

  datatype Enemy = Enemy(x: real, y: real, width: real, height: real, speed: real,
                         canDropPowerup: bool, lastShoot: real)
  {
    function Hitbox(): Box { Box(x, y, width, height) }
    /** The frame's enemy step: the speed is reset to the current speed, then applied. */
    function Advanced(currentSpeed: real): Enemy { this.(speed := currentSpeed, y := y + currentSpeed) }
    /** The centre, where the enemy's explosion and pickup appear. */
    function CentreX(): real { x + width / 2.0 }
    function CentreY(): real { y + height / 2.0 }
  }

  datatype PowerupKind = DoubleFire | WideBullets | Shield | Heal

  datatype Pickup = Pickup(x: real, y: real, width: real, height: real, speed: real, kind: PowerupKind)
  {
    function Hitbox(): Box { Box(x, y, width, height) }
  }

  /** A timed effect (double fire, wide shot, shield, invulnerability): whether
      it is on and when it was last switched on. */
  datatype Effect = Effect(on: bool, since: real)

  /** A player bullet's frame of motion (upwards). */
  function Rise(b: Bullet): Bullet { b.(y := b.y - b.speed) }
  /** An enemy bullet's frame of motion (downwards). */
  function Sink(b: Bullet): Bullet { b.(y := b.y + b.speed) }
  /** A pickup's frame of motion (downwards). */
  function Fall(p: Pickup): Pickup { p.(y := p.y + p.speed) }

  /** A player bullet stays while its bottom edge is below the top of the canvas. */
  predicate InFlight(b: Bullet) { b.y > -b.height }
  /** An enemy bullet or pickup stays until it is a full height below the canvas. */
  function Unfallen(height: real): Bullet -> bool { (b: Bullet) => b.y < height + b.height }
  function Uncollected(height: real): Pickup -> bool { (p: Pickup) => p.y < height + p.height }
  /** An enemy stays until its top edge reaches the bottom of the canvas. */
  function Onscreen(height: real): Enemy -> bool { (e: Enemy) => e.y < height }

  function BulletStrikes(ship: Box): Bullet -> bool { (b: Bullet) => Overlaps(ship, b.Hitbox()) }
  function EnemyRams(ship: Box): Enemy -> bool { (e: Enemy) => Overlaps(ship, e.Hitbox()) }
  function PickupTouches(ship: Box): Pickup -> bool { (p: Pickup) => Overlaps(ship, p.Hitbox()) }

  // ---------------------------------------------------------------------------
  // Rules of a frame, as pure functions

  /** Milliseconds that must pass between two player volleys. */
  function ShotInterval(doubleFire: bool): real
  {
    if doubleFire then 100.0 else 200.0
  }

  /** A 6 x 15 player bullet centred on the ship, shifted by (dx, dy). */
  function PlayerShot(p: Box, dx: real, dy: real): Bullet
  {
    Bullet(p.x + p.width / 2.0 - 3.0 + dx, p.y + dy, 6.0, 15.0, BulletSpeed)
  }

  /** The three bullets of a wide shot, 15 px apart, left to right. */
  function WideRow(p: Box): seq<Bullet>
  {
    [PlayerShot(p, -15.0, 0.0), PlayerShot(p, 0.0, 0.0), PlayerShot(p, 15.0, 0.0)]
  }

  /** What one firing appends: one bullet from the nose, or three 15 px apart
      under wide shot, plus one more 10 px higher under double fire. */
  function Volley(p: Box, wide: bool, double: bool): (r: seq<Bullet>)
    ensures |r| == (if wide then 3 else 1) + (if double then 1 else 0)
    ensures forall b :: b in r ==> b.width == 6.0 && b.height == 15.0 && b.speed == BulletSpeed
    ensures forall b :: b in r ==> b.y == p.y || (double && b.y == p.y - 10.0)
    ensures forall b :: b in r ==>
      var offset := b.x + 3.0 - (p.x + p.width / 2.0);
      offset == 0.0 || (wide && (offset == 15.0 || offset == -15.0))
  {
    (if wide then WideRow(p) else [PlayerShot(p, 0.0, 0.0)])
    + (if double then [PlayerShot(p, 0.0, -10.0)] else [])
  }

  /** An enemy fires once it is past the entry line and its own cooldown has run out. */
  predicate Fires(e: Enemy, time: real, interval: real)
  {
    time - e.lastShoot > interval && e.y > 50.0
  }

  /** The 6 x 15 bullet an enemy fires from the middle of its lower edge. */
  function EnemyShot(e: Enemy): Bullet
  {
    Bullet(e.x + e.width / 2.0 - 3.0, e.y + e.height, 6.0, 15.0, EnemyBulletSpeed)
  }

  /** The enemies after a round of enemy fire: exactly the ones that fire have
      their cooldown restarted at `time`; nothing else about any enemy changes. */
  function Reloaded(es: seq<Enemy>, time: real, interval: real): (r: seq<Enemy>)
    ensures |r| == |es|
    ensures forall i :: 0 <= i < |es| ==> r[i] == es[i].(lastShoot := r[i].lastShoot)
    ensures forall i :: 0 <= i < |es| ==>
      r[i].lastShoot == if Fires(es[i], time, interval) then time else es[i].lastShoot
  {
    seq(|es|, i requires 0 <= i < |es| =>
      if Fires(es[i], time, interval) then es[i].(lastShoot := time) else es[i])
  }

  /** The enemy bullets one round of enemy fire appends, in enemy order. */
  function ReturnFire(es: seq<Enemy>, time: real, interval: real): (r: seq<Bullet>)
    ensures |r| <= |es|
    ensures r == [] <==> forall e :: e in es ==> !Fires(e, time, interval)
    ensures forall b :: b in r ==> exists e :: e in es && Fires(e, time, interval) && b == EnemyShot(e)
    decreases |es|
  {
    if es == [] then []
    else
      var last := es[|es| - 1];
      var front := es[..|es| - 1];
      assert forall e :: e in es <==> e in front || e == last;
      ReturnFire(front, time, interval) + (if Fires(last, time, interval) then [EnemyShot(last)] else [])
  }

  /** `Fires` as a filter callback. */
  function Firing(time: real, interval: real): Enemy -> bool
  {
    e => Fires(e, time, interval)
  }

  /** One round of enemy fire is exactly one shot from each firing enemy, in
      enemy order: the k-th bullet comes from the k-th enemy that fires. */
  lemma {:induction false} ReturnFirePerFirer(es: seq<Enemy>, time: real, interval: real)
    ensures var firers := Filter(es, Firing(time, interval)); var r := ReturnFire(es, time, interval);
      |r| == |firers| && forall k :: 0 <= k < |r| ==> r[k] == EnemyShot(firers[k])
    decreases |es|
  {
    if es != [] {
      var front, last := es[..|es| - 1], es[|es| - 1];
      ReturnFirePerFirer(front, time, interval);
      assert es == front + [last];
      FilterSnoc(front, last, Firing(time, interval));
    }
  }

  /** Cooldown: right after a round of fire, no enemy can fire again at the same instant. */
  lemma ReloadedHoldsFire(es: seq<Enemy>, time: real, interval: real)
    requires 0.0 <= interval
    ensures ReturnFire(Reloaded(es, time, interval), time, interval) == []
  {
    var r := Reloaded(es, time, interval);
    forall e | e in r ensures !Fires(e, time, interval) {
      var i :| 0 <= i < |r| && r[i] == e;
    }
  }

  /** `Math.max(800, base - gameTime * rate)`: the current gap between waves. */
  function SpawnInterval(base: real, gameTime: real, rate: real): (r: real)
    ensures MinSpawnInterval <= r
    ensures r == MinSpawnInterval || r == base - gameTime * rate
  {
    Max(MinSpawnInterval, base - gameTime * rate)
  }

  /** Waves never come less often as the run goes on. */
  lemma SpawnIntervalShrinks(base: real, t1: real, t2: real, rate: real)
    requires t1 <= t2 && 0.0 <= rate
    ensures SpawnInterval(base, t2, rate) <= SpawnInterval(base, t1, rate)
  {
    var d := t2 - t1;
    assert t2 * rate == t1 * rate + d * rate;
    assert 0.0 <= d * rate;
  }

  /** The enemies' current speed: the base speed plus the tier's growth per
      millisecond of play. */
  function EnemySpeed(base: real, gameTime: real, rate: real): real
  {
    base + gameTime * rate
  }

  /** How many enemies one wave holds: the iterations of
      `for (i = 0; i < Math.min(Math.floor(1 + gameTime * mult * 0.0001), 3); i++)`. */
  function WaveSize(gameTime: real, mult: real): (n: nat)
    ensures n <= MaxWave
  {
    var count := (1.0 + gameTime * mult * 0.0001).Floor;
    if count < 0 then 0 else if count < MaxWave then count else MaxWave
  }

  /** Once the run has started every wave holds at least one enemy, and waves
      reach their full size exactly when gameTime * multiplier reaches 20000. */
  lemma WaveSizeGrows(gameTime: real, mult: real)
    requires 0.0 <= gameTime * mult
    ensures 1 <= WaveSize(gameTime, mult)
    ensures WaveSize(gameTime, mult) == MaxWave <==> 20000.0 <= gameTime * mult
  {
  }

  /** A fraction of a non-negative length is no longer than the length. */
  lemma ScaledWithin(a: real, b: real)
    requires 0.0 <= a < 1.0 && 0.0 <= b
    ensures 0.0 <= a * b <= b
  {
    assert b - a * b == (1.0 - a) * b;
  }

  /** The i-th enemy of a wave (0-based), placed from a horizontal roll and a drop roll. */
  function Spawned(i: nat, xRoll: Unit, dropRoll: Unit, width: real, speed: real): (e: Enemy)
    ensures e.y == -EnemySize - 60.0 * i as real && e.y + e.height <= 0.0
    ensures e.width == EnemySize && e.height == EnemySize && e.speed == speed && e.lastShoot == 0.0
    ensures e.canDropPowerup <==> dropRoll < PowerupDropRate
  {
    Enemy(xRoll * (width - EnemySize), -40.0 - 60.0 * i as real, EnemySize, EnemySize, speed,
          dropRoll < PowerupDropRate, 0.0)
  }

  /** On a canvas at least one enemy wide, every spawned enemy lies within its width. */
  lemma SpawnedInside(i: nat, xRoll: Unit, dropRoll: Unit, width: real, speed: real)
    requires EnemySize <= width
    ensures var e := Spawned(i, xRoll, dropRoll, width, speed); 0.0 <= e.x && e.x + e.width <= width
  {
    var room := width - EnemySize;
    ScaledWithin(xRoll, room);
    assert Spawned(i, xRoll, dropRoll, width, speed).x == xRoll * room;
  }

  /** The enemies of one wave of n, drawing two values of `rnd` each from `from` on. */
  function Wave(n: nat, rnd: nat -> Unit, from: nat, width: real, speed: real): (w: seq<Enemy>)
    ensures |w| == n
    ensures forall i :: 0 <= i < n ==> w[i] == Spawned(i, rnd(from + 2 * i), rnd(from + 2 * i + 1), width, speed)
    ensures forall i :: 0 <= i < n ==>
      w[i].y == -EnemySize - 60.0 * i as real && w[i].y + w[i].height <= 0.0 &&
      w[i].width == EnemySize && w[i].height == EnemySize && w[i].speed == speed && w[i].lastShoot == 0.0 &&
      (w[i].canDropPowerup <==> rnd(from + 2 * i + 1) < PowerupDropRate)
  {
    seq(n, i requires 0 <= i < n => Spawned(i, rnd(from + 2 * i), rnd(from + 2 * i + 1), width, speed))
  }

  /** On a canvas at least one enemy wide, a whole wave lies within its width. */
  lemma WaveInside(n: nat, rnd: nat -> Unit, from: nat, width: real, speed: real)
    requires EnemySize <= width
    ensures forall e :: e in Wave(n, rnd, from, width, speed) ==> 0.0 <= e.x && e.x + e.width <= width
  {
    var w := Wave(n, rnd, from, width, speed);
    forall i | 0 <= i < n
      ensures 0.0 <= w[i].x && w[i].x + w[i].width <= width
    {
      SpawnedInside(i, rnd(from + 2 * i), rnd(from + 2 * i + 1), width, speed);
    }
  }

  /** `types[Math.floor(roll * 4)]`: each kind owns a quarter of [0, 1). */
  function KindOf(roll: Unit): (k: PowerupKind)
    ensures k == DoubleFire <==> roll < 0.25
    ensures k == WideBullets <==> 0.25 <= roll < 0.5
    ensures k == Shield <==> 0.5 <= roll < 0.75
    ensures k == Heal <==> 0.75 <= roll
  {
    var i := (roll * 4.0).Floor;
    [DoubleFire, WideBullets, Shield, Heal][i]
  }

  /** A 30 x 30 pickup centred horizontally on (x, y), falling 3 px per frame. */
  function Drop(x: real, y: real, kind: PowerupKind): (p: Pickup)
    ensures p.x + p.width / 2.0 == x && p.y == y && p.kind == kind
    ensures p.width == PickupSize && p.height == PickupSize && p.speed == PickupSpeed
  {
    Pickup(x - 15.0, y, PickupSize, PickupSize, PickupSpeed, kind)
  }

  /** A heal pickup adds one point of health, but never above the maximum. */
  function Healed(hp: int): (r: int)
    ensures hp <= PlayerHp ==> r <= PlayerHp
    ensures hp <= r <= hp + 1
    ensures r == hp + 1 <==> hp < PlayerHp
  {
    if hp < PlayerHp then hp + 1 else hp
  }

  /** How many of the pickups are of the given kind. */
  function Collected(ps: seq<Pickup>, kind: PowerupKind): (n: nat)
    ensures n <= |ps|
    decreases |ps|
  {
    if ps == [] then 0
    else Collected(ps[..|ps| - 1], kind) + (if ps[|ps| - 1].kind == kind then 1 else 0)
  }

  /** An effect stays on at `now` exactly while no more than `duration` has
      passed since it was last switched on. */
  function StillOn(e: Effect, now: real, duration: real): (r: bool)
    ensures r <==> e.on && now <= e.since + duration
  {
    e.on && !(now - e.since > duration)
  }

  /** One explosion fragment: born at (x, y) with 30 frames of life and a
      velocity of `(roll - 0.5) * 8` on each axis. */
  function Spark(x: real, y: real, xRoll: Unit, yRoll: Unit): (p: Particle)
    ensures p.x == x && p.y == y && p.life == SparkLife
    ensures -4.0 <= p.vx < 4.0 && -4.0 <= p.vy < 4.0
  {
    Particle(x, y, (xRoll - 0.5) * 8.0, (yRoll - 0.5) * 8.0, SparkLife)
  }

  /** The fifteen fragments of one explosion, drawing two values of `rnd` each. */
  function Burst(x: real, y: real, rnd: nat -> Unit, from: nat): (ps: seq<Particle>)
    ensures |ps| == BurstSize
  {
    seq(BurstSize, i requires 0 <= i < BurstSize => Spark(x, y, rnd(from + 2 * i), rnd(from + 2 * i + 1)))
  }

  /** An explosion's fragments all start at its centre, alive, and slower than
      4 px per frame on each axis. */
  lemma BurstShape(x: real, y: real, rnd: nat -> Unit, from: nat)
    ensures forall p :: p in Burst(x, y, rnd, from) ==>
      p.x == x && p.y == y && p.Alive() && -4.0 <= p.vx < 4.0 && -4.0 <= p.vy < 4.0
  {
    var ps := Burst(x, y, rnd, from);
    forall p | p in ps
      ensures p.x == x && p.y == y && p.Alive() && -4.0 <= p.vx < 4.0 && -4.0 <= p.vy < 4.0
    {
      var i :| 0 <= i < BurstSize && ps[i] == p;
    }
  }

  /** How many of `hits` successive hits, starting at `hp0` health, leave the
      ship at 0 or below: each of those ends the game and reports the score. */
  function Reported(hp0: int, hits: nat): nat
  {
    if hits == 0 then 0 else Reported(hp0, hits - 1) + (if hp0 - hits <= 0 then 1 else 0)
  }

  /** The same count in closed form. */
  function GameOvers(hp0: int, hits: nat): nat
  {
    if hp0 - hits > 0 then 0 else if hp0 > 0 then hits - hp0 + 1 else hits
  }

  /** The game-over report fires on the hit that takes the ship from 1 to 0 and
      on every hit after it, and never before. */
  lemma {:induction false} ReportedCount(hp0: int, hits: nat)
    ensures Reported(hp0, hits) == GameOvers(hp0, hits)
    ensures Reported(hp0, hits) == 0 <==> hits == 0 || hp0 - hits > 0
  {
    if hits > 0 {
      ReportedCount(hp0, hits - 1);
    }
  }

  // ---------------------------------------------------------------------------
  // Player bullets against enemies, each enemy destroyed at most once

  /** Index of the first bullet that overlaps `e`, or |bs| when none does. */
  function FirstHit(bs: seq<Bullet>, e: Enemy): (j: nat)
    ensures j <= |bs|
    ensures j < |bs| ==> Overlaps(bs[j].Hitbox(), e.Hitbox())
    ensures forall i :: 0 <= i < j ==> !Overlaps(bs[i].Hitbox(), e.Hitbox())
    decreases |bs|
  {
    if bs == [] then 0
    else if Overlaps(bs[0].Hitbox(), e.Hitbox()) then 0
    else 1 + FirstHit(bs[1..], e)
  }

  /** Every enemy after its step of the frame. */
  function Marched(es: seq<Enemy>, speed: real): (r: seq<Enemy>)
    ensures |r| == |es| && forall i :: 0 <= i < |es| ==> r[i] == es[i].Advanced(speed)
    ensures forall i :: 0 <= i < |es| ==>
      r[i].y == es[i].y + speed && r[i].speed == speed && r[i].x == es[i].x &&
      r[i].width == es[i].width && r[i].height == es[i].height &&
      r[i].canDropPowerup == es[i].canDropPowerup && r[i].lastShoot == es[i].lastShoot
  {
    seq(|es|, i requires 0 <= i < |es| => es[i].Advanced(speed))
  }

  datatype KillOutcome = KillOutcome(survivors: seq<Enemy>, bullets: seq<Bullet>, kills: seq<Enemy>)

  /** The kill pass of one frame over enemies that have already stepped: each
      enemy, in order, is destroyed by the first remaining bullet that overlaps
      it, and that bullet is used up. */
  function KillPass(es: seq<Enemy>, bs: seq<Bullet>): (o: KillOutcome)
    ensures |o.survivors| + |o.kills| == |es|
    ensures |o.bullets| + |o.kills| == |bs|
    decreases |es|
  {
    if es == [] then KillOutcome([], bs, [])
    else
      var e := es[0];
      var j := FirstHit(bs, e);
      if j < |bs| then
        var rest := KillPass(es[1..], RemoveAt(bs, j));
        KillOutcome(rest.survivors, rest.bullets, [e] + rest.kills)
      else
        var rest := KillPass(es[1..], bs);
        KillOutcome([e] + rest.survivors, rest.bullets, rest.kills)
  }

  /** The pass makes nothing up, and it is complete: no survivor is still under
      a bullet that is left, and every kill was under one of the bullets. */
  lemma {:induction false} KillPassSound(es: seq<Enemy>, bs: seq<Bullet>)
    ensures var o := KillPass(es, bs);
      (forall e :: e in o.survivors ==> e in es) &&
      (forall e :: e in o.kills ==> e in es) &&
      (forall b :: b in o.bullets ==> b in bs) &&
      (forall e, b :: e in o.survivors && b in o.bullets ==> !Overlaps(b.Hitbox(), e.Hitbox())) &&
      (forall e :: e in o.kills ==> exists b :: b in bs && Overlaps(b.Hitbox(), e.Hitbox()))
    decreases |es|
  {
    if es != [] {
      var e := es[0];
      var j := FirstHit(bs, e);
      assert forall x :: x in es[1..] ==> x in es;
      if j < |bs| {
        KillPassSound(es[1..], RemoveAt(bs, j));
        assert bs[j] in bs;
      } else {
        KillPassSound(es[1..], bs);
        assert forall b :: b in bs ==> !Overlaps(b.Hitbox(), e.Hitbox());
      }
    }
  }

  /** The pass only ever removes bullets. */
  lemma KillPassSpends(es: seq<Enemy>, bs: seq<Bullet>)
    ensures forall b :: b in KillPass(es, bs).bullets ==> b in bs
  {
    KillPassSound(es, bs);
  }

  /** With no bullet over any enemy, the pass destroys nothing and uses nothing up. */
  lemma {:induction false} KillPassQuiet(es: seq<Enemy>, bs: seq<Bullet>)
    requires forall e, b :: e in es && b in bs ==> !Overlaps(b.Hitbox(), e.Hitbox())
    ensures KillPass(es, bs) == KillOutcome(es, bs, [])
    decreases |es|
  {
    if es != [] {
      assert forall x :: x in es[1..] ==> x in es;
      KillPassQuiet(es[1..], bs);
      assert [es[0]] + es[1..] == es;
    }
  }

  /** The inner `forEach` of the kill step: the first bullet over the enemy. */
  method FindHit(bs: seq<Bullet>, e: Enemy) returns (j: nat)
    ensures j == FirstHit(bs, e)
  {
    j := 0;
    while j < |bs| && !Overlaps(bs[j].Hitbox(), e.Hitbox())
      invariant 0 <= j <= |bs| && j <= FirstHit(bs, e)
    {
      j := j + 1;
    }
  }

  /** The two nested `forEach` loops of the kill step, over local copies of
      the arrays: each enemy in turn against the bullets still in flight. */
  method KillLoop(es: seq<Enemy>, bs: seq<Bullet>) returns (o: KillOutcome)
    ensures o == KillPass(es, bs)
  {
    var left := bs;
    var survivors: seq<Enemy> := [];
    var kills: seq<Enemy> := [];
    var i := 0;
    while i < |es|
      invariant 0 <= i <= |es|
      invariant
        var rest := KillPass(es[i..], left);
        KillPass(es, bs) == KillOutcome(survivors + rest.survivors, rest.bullets, kills + rest.kills)
    {
      var enemy := es[i];
      ghost var rest := KillPass(es[i..], left);
      assert es[i..][0] == enemy && es[i..][1..] == es[i + 1..];
      var j := FindHit(left, enemy);
      if j < |left| {
        left := RemoveAt(left, j);
        ghost var next := KillPass(es[i + 1..], left);
        assert rest == KillOutcome(next.survivors, next.bullets, [enemy] + next.kills);
        assert kills + ([enemy] + next.kills) == (kills + [enemy]) + next.kills;
        kills := kills + [enemy];
      } else {
        ghost var next := KillPass(es[i + 1..], left);
        assert rest == KillOutcome([enemy] + next.survivors, next.bullets, next.kills);
        assert survivors + ([enemy] + next.survivors) == (survivors + [enemy]) + next.survivors;
        survivors := survivors + [enemy];
      }
      i := i + 1;
    }
    assert es[i..] == [];
    o := KillOutcome(survivors, left, kills);
  }

  /** The firing loop of `enemyShoot` over a local copy of the enemies. */
  method ReloadLoop(es0: seq<Enemy>, time: real, interval: real) returns (es: seq<Enemy>, fired: seq<Bullet>)
    ensures es == Reloaded(es0, time, interval)
    ensures fired == ReturnFire(es0, time, interval)
  {
    es, fired := es0, [];
    var k := 0;
    while k < |es|
      invariant 0 <= k <= |es| == |es0|
      invariant forall i :: 0 <= i < k ==> es[i] == Reloaded(es0, time, interval)[i]
      invariant forall i :: k <= i < |es| ==> es[i] == es0[i]
      invariant fired == ReturnFire(es0[..k], time, interval)
    {
      var enemy := es[k];
      assert es0[..k + 1][..k] == es0[..k];
      if Fires(enemy, time, interval) {
        es := es[k := enemy.(lastShoot := time)];
        fired := fired + [EnemyShot(enemy)];
      }
      k := k + 1;
    }
    assert es0[..k] == es0;
  }

  /** Number of kills that drop a pickup. */
  function Droppers(kills: seq<Enemy>): (n: nat)
    ensures n <= |kills|
    ensures n == 0 <==> forall e :: e in kills ==> !e.canDropPowerup
    decreases |kills|
  {
    if kills == [] then 0
    else
      var front := kills[..|kills| - 1];
      assert forall e :: e in kills <==> e in front || e == kills[|kills| - 1];
      Droppers(front) + (if kills[|kills| - 1].canDropPowerup then 1 else 0)
  }

  /** The random values the rewards of a run of kills draw: two per fragment
      of each explosion, and one more for each pickup. */
  function Spent(kills: seq<Enemy>): nat
    decreases |kills|
  {
    if kills == [] then 0
    else
      var last := kills[|kills| - 1];
      Spent(kills[..|kills| - 1]) + 2 * BurstSize + (if last.canDropPowerup then 1 else 0)
  }

  /** The fragments of a run of kills: one explosion on each enemy's centre,
      drawing from `rnd` at `from` onwards. */
  function Wreckage(kills: seq<Enemy>, rnd: nat -> Unit, from: nat): (ps: seq<Particle>)
    decreases |kills|
  {
    if kills == [] then []
    else
      var front := kills[..|kills| - 1];
      var e := kills[|kills| - 1];
      Wreckage(front, rnd, from) + Burst(e.CentreX(), e.CentreY(), rnd, from + Spent(front))
  }

  /** The pickups of a run of kills: after its explosion, each enemy that
      carries a pickup drops one whose kind is the next value drawn. */
  function Loot(kills: seq<Enemy>, rnd: nat -> Unit, from: nat): (ps: seq<Pickup>)
    decreases |kills|
  {
    if kills == [] then []
    else
      var front := kills[..|kills| - 1];
      var e := kills[|kills| - 1];
      Loot(front, rnd, from) +
        (if e.canDropPowerup
         then [Drop(e.CentreX(), e.CentreY(), KindOf(rnd(from + Spent(front) + 2 * BurstSize)))]
         else [])
  }

  /** The rewards of the first i + 1 kills are those of the first i, then those
      of kill i: its explosion at the next draw, then its pickup, if any. */
  lemma RewardStep(kills: seq<Enemy>, i: nat, rnd: nat -> Unit, from: nat,
                   ps: seq<Particle>, ups: seq<Pickup>, spent: nat)
    requires i < |kills|
    requires ps == Wreckage(kills[..i], rnd, from) && ups == Loot(kills[..i], rnd, from) && spent == Spent(kills[..i])
    ensures var e := kills[i]; var cx := e.CentreX(); var cy := e.CentreY();
      Wreckage(kills[..i + 1], rnd, from) == ps + Burst(cx, cy, rnd, from + spent) &&
      Loot(kills[..i + 1], rnd, from) ==
        (if e.canDropPowerup then ups + [Drop(cx, cy, KindOf(rnd(from + spent + 2 * BurstSize)))] else ups) &&
      Spent(kills[..i + 1]) == spent + 2 * BurstSize + (if e.canDropPowerup then 1 else 0)
  {
    assert kills[..i + 1][..i] == kills[..i];
  }

  /** The rewards loop of the kill step over local arrays, kill by kill: the
      explosion (`createExplosion`), then the pickup (`spawnPowerup`) of an
      enemy that carries one, drawing from `rnd` at `from` onwards. */
  method Spoils(kills: seq<Enemy>, rnd: nat -> Unit, from: nat) returns (ps: seq<Particle>, ups: seq<Pickup>, spent: nat)
    ensures ps == Wreckage(kills, rnd, from) && ups == Loot(kills, rnd, from) && spent == Spent(kills)
  {
    ps, ups, spent := [], [], 0;
    for i := 0 to |kills|
      invariant ps == Wreckage(kills[..i], rnd, from)
      invariant ups == Loot(kills[..i], rnd, from)
      invariant spent == Spent(kills[..i])
    {
      RewardStep(kills, i, rnd, from, ps, ups, spent);
      var e := kills[i];
      ps := ps + Burst(e.CentreX(), e.CentreY(), rnd, from + spent);
      spent := spent + 2 * BurstSize;
      if e.canDropPowerup {
        ups := ups + [Drop(e.CentreX(), e.CentreY(), KindOf(rnd(from + spent)))];
        spent := spent + 1;
      }
    }
    assert kills[..|kills|] == kills;
  }

  /** A run of kills yields fifteen fragments per kill and one pickup per
      carrier, each pickup 30 x 30 and falling at 3 px per frame. */
  lemma {:induction false} LootShape(kills: seq<Enemy>, rnd: nat -> Unit, from: nat)
    ensures |Wreckage(kills, rnd, from)| == BurstSize * |kills|
    ensures |Loot(kills, rnd, from)| == Droppers(kills)
    ensures Spent(kills) == 2 * BurstSize * |kills| + Droppers(kills)
    ensures forall p :: p in Loot(kills, rnd, from) ==>
      p.width == PickupSize && p.height == PickupSize && p.speed == PickupSpeed
    decreases |kills|
  {
    if kills != [] {
      var front := kills[..|kills| - 1];
      LootShape(front, rnd, from);
    }
  }

  // ---------------------------------------------------------------------------
  // The game session

  class Session {
    const width: real           // canvas width
    const height: real          // canvas height
    const rnd: nat -> Unit      // Math.random(): the n-th value a modelled call draws
    var draws: nat              // how many values have been drawn so far

    var score: int
    var active: bool            // the game is running
    var hp: int
    var difficulty: Option<Difficulty>
    var showStartButton: bool

    var player: Box
    var playerBullets: seq<Bullet>
    var enemyBullets: seq<Bullet>
    var enemies: seq<Enemy>
    var powerups: seq<Pickup>
    var particles: seq<Particle>
    var lastTime: real
    var spawnTimer: real
    var lastShootTime: real
    var gameTime: real
    var invincible: Effect
    var doubleFire: Effect
    var wideBullets: Effect
    var shield: Effect
    var baseEnemySpeed: real
    var baseSpawnInterval: real

    var reports: seq<int>       // every score handed to onGameOver, oldest first

    ghost predicate Valid()
      reads this
    {
      0 <= score && hp <= PlayerHp && player.width == PlayerSize && player.height == PlayerSize
    }

    /** The state `initGame` leaves: empty field, full health, no effects on,
        the ship centred 100 px above the bottom edge. */
    ghost predicate IsFreshRun()
      reads this
    {
      playerBullets == [] && enemyBullets == [] && enemies == [] && powerups == [] &&
      particles == [] && score == 0 && hp == PlayerHp &&
      !doubleFire.on && !wideBullets.on && !shield.on && !invincible.on && gameTime == 0.0 &&
      player == Box(width / 2.0 - 20.0, height - 100.0, PlayerSize, PlayerSize)
    }

    /** Mounting the component: the canvas takes its parent's width (350 when
        that is 0) and a height of 600, then the game is initialised. */
    constructor (clientWidth: nat, rnd: nat -> Unit)
      ensures Valid() && IsFreshRun()
      ensures width == (if clientWidth == 0 then 350.0 else clientWidth as real) && height == 600.0
      ensures this.rnd == rnd && draws == 0
      ensures !active && difficulty == None && !showStartButton && reports == []
      ensures lastTime == 0.0 && spawnTimer == 0.0 && lastShootTime == 0.0
    {
      width := if clientWidth == 0 then 350.0 else clientWidth as real;
      height := 600.0;
      this.rnd := rnd;
      draws := 0;
      active, difficulty, showStartButton := false, None, false;
      reports := [];
      lastTime, spawnTimer, lastShootTime := 0.0, 0.0, 0.0;
      invincible, doubleFire, wideBullets, shield :=
        Effect(false, 0.0), Effect(false, 0.0), Effect(false, 0.0), Effect(false, 0.0);
      baseEnemySpeed, baseSpawnInterval := 0.0, 0.0;
      new;
      InitGame();
    }

    /** The part of `initGame` that empties the field: the ship back at its
        start, 100 px above the bottom edge, and no bullets, enemies, pickups
        or fragments. */
    method ClearField()
      modifies this`player, this`playerBullets, this`enemyBullets, this`enemies, this`powerups,
               this`particles
      ensures player == Box(width / 2.0 - 20.0, height - 100.0, PlayerSize, PlayerSize)
      ensures playerBullets == [] && enemyBullets == [] && enemies == [] && powerups == [] && particles == []
    {
      player := Box(width / 2.0 - 20.0, height - 100.0, PlayerSize, PlayerSize);
      playerBullets, enemyBullets, enemies, powerups, particles := [], [], [], [], [];
    }

    /** `initGame`: resets the run. The spawn accumulator, the last-shot time
        and the times the effects were switched on are left as they were. */
    method InitGame()
      modifies this`player, this`playerBullets, this`enemyBullets, this`enemies, this`powerups,
               this`particles, this`score, this`hp, this`doubleFire, this`wideBullets,
               this`shield, this`invincible, this`gameTime
      ensures Valid() && IsFreshRun()
      ensures doubleFire == old(doubleFire).(on := false) && wideBullets == old(wideBullets).(on := false)
      ensures shield == old(shield).(on := false) && invincible == old(invincible).(on := false)
    {
      score, hp := 0, PlayerHp;
      doubleFire, wideBullets, shield, invincible :=
        doubleFire.(on := false), wideBullets.(on := false), shield.(on := false), invincible.(on := false);
      gameTime := 0.0;
      ClearField();
    }

    /** `selectDifficulty`: records the tier and its base speed and spawn interval. */
    method SelectDifficulty(d: Difficulty)
      modifies this`difficulty, this`baseEnemySpeed, this`baseSpawnInterval, this`showStartButton
      ensures difficulty == Some(d) && showStartButton
      ensures baseEnemySpeed == TierOf(d).enemySpeed
      ensures baseSpawnInterval == TierOf(d).enemySpawnInterval
    {
      difficulty := Some(d);
      baseEnemySpeed := TierOf(d).enemySpeed;
      baseSpawnInterval := TierOf(d).enemySpawnInterval;
      showStartButton := true;
    }

    /** `startGame`: ignored until a difficulty is chosen; otherwise a fresh run
        starts with the frame clock at `now`. */
    method StartGame(now: real)
      modifies this
      ensures old(difficulty).None? ==> unchanged(this)
      ensures old(difficulty).Some? ==> Valid() && IsFreshRun() && active && lastTime == now
      ensures difficulty == old(difficulty) && reports == old(reports) && draws == old(draws)
    {
      if difficulty.None? {
        return;
      }
      InitGame();
      active := true;
      lastTime := now;
    }

    /** `handleTouch`: while running, the touch's x (relative to the canvas)
        centres the ship, clamped to the field. */
    method HandleTouch(clientX: real, rectLeft: real)
      requires Valid()
      modifies this`player
      ensures Valid()
      ensures !active ==> player == old(player)
      ensures active ==> player == old(player).(x := Clamp(clientX - rectLeft - 20.0, 0.0, width - PlayerSize))
      ensures active && PlayerSize <= width ==> 0.0 <= player.x <= width - PlayerSize
    {
      if !active {
        return;
      }
      var x := clientX - rectLeft;
      player := player.(x := Clamp(x - player.width / 2.0, 0.0, width - player.width));
    }

    /** `createExplosion`: fifteen fragments at (x, y). */
    method Explode(x: real, y: real)
      modifies this`particles, this`draws
      ensures particles == old(particles) + Burst(x, y, rnd, old(draws))
      ensures draws == old(draws) + 2 * BurstSize
    {
      var ps := particles;
      var i := 0;
      while i < BurstSize
        invariant 0 <= i <= BurstSize
        invariant ps == old(particles) + Burst(x, y, rnd, draws)[..i]
      {
        ps := ps + [Spark(x, y, rnd(draws + 2 * i), rnd(draws + 2 * i + 1))];
        i := i + 1;
        assert Burst(x, y, rnd, draws)[..i] == Burst(x, y, rnd, draws)[..i - 1] + [Burst(x, y, rnd, draws)[i - 1]];
      }
      particles := ps;
      draws := draws + 2 * BurstSize;
    }

    /** `spawnPowerup`: one pickup of a random kind centred on (x, y). */
    method SpawnPowerup(x: real, y: real)
      modifies this`powerups, this`draws
      ensures powerups == old(powerups) + [Drop(x, y, KindOf(rnd(old(draws))))]
      ensures draws == old(draws) + 1
    {
      powerups := powerups + [Drop(x, y, KindOf(rnd(draws)))];
      draws := draws + 1;
    }

    /** `takeDamage`: one point of health, a fresh invulnerability window, an
        explosion on the ship, and the end of the game when health runs out. */
    method TakeDamage(now: real)
      modifies this`hp, this`invincible, this`particles, this`draws, this`active, this`reports
      ensures hp == old(hp) - 1 && invincible == Effect(true, now)
      ensures particles == old(particles) +
        Burst(player.x + player.width / 2.0, player.y + player.height / 2.0, rnd, old(draws))
      ensures draws == old(draws) + 2 * BurstSize
      ensures active == (old(active) && 0 < hp)
      ensures reports == old(reports) + (if hp <= 0 then [score] else [])
    {
      var newHp := hp - 1;
      hp := newHp;
      invincible := Effect(true, now);
      Explode(player.x + player.width / 2.0, player.y + player.height / 2.0);
      if newHp <= 0 {
        active := false;
        reports := reports + [score];
      }
    }

    /** `shoot`: fires a volley when more than the current interval has passed
        since the last one; otherwise nothing changes. */
    method Shoot(time: real)
      modifies this`lastShootTime, this`playerBullets
      ensures time - old(lastShootTime) > ShotInterval(doubleFire.on) ==>
        lastShootTime == time &&
        playerBullets == old(playerBullets) + Volley(player, wideBullets.on, doubleFire.on)
      ensures !(time - old(lastShootTime) > ShotInterval(doubleFire.on)) ==>
        lastShootTime == old(lastShootTime) && playerBullets == old(playerBullets)
    {
      if time - lastShootTime > ShotInterval(doubleFire.on) {
        lastShootTime := time;
        var p := player;
        var shots: seq<Bullet> := [];
        if wideBullets.on {
          for i := -1 to 2
            invariant shots == WideRow(p)[..i + 1]
          {
            shots := shots + [PlayerShot(p, i as real * 15.0, 0.0)];
          }
        } else {
          shots := [PlayerShot(p, 0.0, 0.0)];
        }
        if doubleFire.on {
          shots := shots + [PlayerShot(p, 0.0, -10.0)];
        }
        playerBullets := playerBullets + shots;
      }
    }

    /** `enemyShoot`: every enemy that `Fires` restarts its cooldown and appends
        one bullet; nothing happens before a difficulty is chosen. */
    method EnemyShoot(time: real)
      modifies this`enemies, this`enemyBullets
      ensures difficulty.None? ==> enemies == old(enemies) && enemyBullets == old(enemyBullets)
      ensures difficulty.Some? ==>
        var interval := TierOf(difficulty.value).enemyShootInterval;
        enemies == Reloaded(old(enemies), time, interval) &&
        enemyBullets == old(enemyBullets) + ReturnFire(old(enemies), time, interval)
    {
      if difficulty.None? {
        return;
      }
      var interval := TierOf(difficulty.value).enemyShootInterval;
      var es, fired := ReloadLoop(enemies, time, interval);
      enemies := es;
      enemyBullets := enemyBullets + fired;
    }

    /** The `for` loop that pushes a wave of n enemies, drawing from `rnd` at `from`. */
    method MakeWave(n: nat, from: nat, speed: real) returns (wave: seq<Enemy>)
      ensures wave == Wave(n, rnd, from, width, speed)
    {
      wave := [];
      var i: nat := 0;
      while i < n
        invariant 0 <= i <= n
        invariant wave == Wave(n, rnd, from, width, speed)[..i]
      {
        wave := wave + [Spawned(i, rnd(from + 2 * i), rnd(from + 2 * i + 1), width, speed)];
        i := i + 1;
        assert Wave(n, rnd, from, width, speed)[..i] ==
          Wave(n, rnd, from, width, speed)[..i - 1] + [Wave(n, rnd, from, width, speed)[i - 1]];
      }
    }

    /** The spawn step of `update`: the accumulator grows by the frame's delta;
        once it exceeds the current `interval` (`SpawnInterval`) a wave of n
        (`WaveSize`) enemies moving at `speed` is appended and the accumulator
        restarts at 0. */
    method SpawnWave(delta: real, interval: real, n: nat, speed: real)
      modifies this`spawnTimer, this`enemies, this`draws
      ensures old(spawnTimer) + delta > interval ==>
        spawnTimer == 0.0 && draws == old(draws) + 2 * n &&
        enemies == old(enemies) + Wave(n, rnd, old(draws), width, speed)
      ensures !(old(spawnTimer) + delta > interval) ==>
        spawnTimer == old(spawnTimer) + delta && enemies == old(enemies) && draws == old(draws)
    {
      spawnTimer := spawnTimer + delta;
      if spawnTimer > interval {
        var wave := MakeWave(n, draws, speed);
        enemies := enemies + wave;
        draws := draws + 2 * n;
        spawnTimer := 0.0;
      }
    }

    /** The rewards of the kill step, kill by kill: an explosion on the enemy,
        `KillScore` points, and a pickup when the enemy carries one. */
    method Reward(kills: seq<Enemy>)
      modifies this`score, this`particles, this`powerups, this`draws
      ensures score == old(score) + KillScore * |kills|
      ensures particles == old(particles) + Wreckage(kills, rnd, old(draws))
      ensures powerups == old(powerups) + Loot(kills, rnd, old(draws))
      ensures draws == old(draws) + Spent(kills)
    {
      var ps, ups, spent := Spoils(kills, rnd, draws);
      score := score + KillScore * |kills|;
      particles := particles + ps;
      powerups := powerups + ups;
      draws := draws + spent;
    }

    /** The bullet-against-enemy step of `update`, each enemy destroyed at most
        once: every enemy steps at `speed`, then `KillPass` decides the kills. */
    method ResolveKills(speed: real)
      requires Valid()
      modifies this`enemies, this`playerBullets, this`score, this`particles, this`powerups, this`draws
      ensures Valid()
      ensures
        var o := KillPass(Marched(old(enemies), speed), old(playerBullets));
        enemies == o.survivors && playerBullets == o.bullets &&
        score == old(score) + KillScore * |o.kills| &&
        particles == old(particles) + Wreckage(o.kills, rnd, old(draws)) &&
        powerups == old(powerups) + Loot(o.kills, rnd, old(draws)) &&
        draws == old(draws) + Spent(o.kills)
    {
      var o := KillLoop(Marched(enemies, speed), playerBullets);
      enemies, playerBullets := o.survivors, o.bullets;
      Reward(o.kills);
    }

    /** `takeDamage` for each of n hits, in order. */
    method Damage(n: nat, now: real)
      modifies this`hp, this`invincible, this`particles, this`draws, this`active, this`reports
      ensures hp == old(hp) - n
      ensures invincible == (if n == 0 then old(invincible) else Effect(true, now))
      ensures |particles| == |old(particles)| + BurstSize * n
      ensures draws == old(draws) + 2 * BurstSize * n
      ensures active == (old(active) && (n == 0 || 0 < hp))
      ensures reports == old(reports) + Repeat(score, GameOvers(old(hp), n))
    {
      ghost var overs := 0;
      for i := 0 to n
        invariant hp == old(hp) - i
        invariant invincible == (if i == 0 then old(invincible) else Effect(true, now))
        invariant |particles| == |old(particles)| + BurstSize * i
        invariant draws == old(draws) + 2 * BurstSize * i
        invariant active == (old(active) && (i == 0 || 0 < hp))
        invariant reports == old(reports) + Repeat(score, overs) && overs == GameOvers(old(hp), i)
      {
        TakeDamage(now);
        if hp <= 0 {
          overs := overs + 1;
        }
      }
    }

    /** Enemy bullets against the ship, a splicing `forEach` (see `Sweep`):
        each bullet visited that overlaps the ship deals one point of damage
        and is removed. */
    method BulletHits(now: real)
      modifies this`enemyBullets, this`hp, this`invincible, this`particles, this`draws,
               this`active, this`reports
      ensures enemyBullets == Sweep(old(enemyBullets), 0, Id, BulletStrikes(player))
      ensures
        var hits := |old(enemyBullets)| - |enemyBullets|;
        hp == old(hp) - hits &&
        invincible == (if hits == 0 then old(invincible) else Effect(true, now)) &&
        |particles| == |old(particles)| + BurstSize * hits &&
        active == (old(active) && (hits == 0 || 0 < hp)) &&
        reports == old(reports) + Repeat(score, GameOvers(old(hp), hits))
    {
      var rest, caught := ForEachSplice(enemyBullets, Id, BulletStrikes(player));
      enemyBullets := rest;
      Damage(|caught|, now);
    }

    /** Enemies against the ship: the same splicing `forEach` over the enemies. */
    method BodyHits(now: real)
      modifies this`enemies, this`hp, this`invincible, this`particles, this`draws,
               this`active, this`reports
      ensures enemies == Sweep(old(enemies), 0, Id, EnemyRams(player))
      ensures
        var hits := |old(enemies)| - |enemies|;
        hp == old(hp) - hits &&
        invincible == (if hits == 0 then old(invincible) else Effect(true, now)) &&
        |particles| == |old(particles)| + BurstSize * hits &&
        active == (old(active) && (hits == 0 || 0 < hp)) &&
        reports == old(reports) + Repeat(score, GameOvers(old(hp), hits))
    {
      var rest, caught := ForEachSplice(enemies, Id, EnemyRams(player));
      enemies := rest;
      Damage(|caught|, now);
    }

    /** A pickup touching the ship: double fire, wide shot and shield switch on
        and restart at `now`; heal adds one point up to the maximum. */
    method ApplyPickup(kind: PowerupKind, now: real)
      modifies this`hp, this`doubleFire, this`wideBullets, this`shield
      ensures doubleFire == if kind == DoubleFire then Effect(true, now) else old(doubleFire)
      ensures wideBullets == if kind == WideBullets then Effect(true, now) else old(wideBullets)
      ensures shield == if kind == Shield then Effect(true, now) else old(shield)
      ensures hp == if kind == Heal then Healed(old(hp)) else old(hp)
    {
      match kind
      case DoubleFire => doubleFire := Effect(true, now);
      case WideBullets => wideBullets := Effect(true, now);
      case Shield => shield := Effect(true, now);
      case Heal =>
        if hp < PlayerHp {
          hp := hp + 1;
        }
    }

    /** The pickups caught in one frame, applied in the order they were caught. */
    method ApplyAll(taken: seq<Pickup>, now: real)
      requires hp <= PlayerHp
      modifies this`hp, this`doubleFire, this`wideBullets, this`shield
      ensures doubleFire == if Collected(taken, DoubleFire) > 0 then Effect(true, now) else old(doubleFire)
      ensures wideBullets == if Collected(taken, WideBullets) > 0 then Effect(true, now) else old(wideBullets)
      ensures shield == if Collected(taken, Shield) > 0 then Effect(true, now) else old(shield)
      ensures var heals := Collected(taken, Heal);
        hp == if old(hp) + heals < PlayerHp then old(hp) + heals else PlayerHp
    {
      for i := 0 to |taken|
        invariant doubleFire == if Collected(taken[..i], DoubleFire) > 0 then Effect(true, now) else old(doubleFire)
        invariant wideBullets == if Collected(taken[..i], WideBullets) > 0 then Effect(true, now) else old(wideBullets)
        invariant shield == if Collected(taken[..i], Shield) > 0 then Effect(true, now) else old(shield)
        invariant var heals := Collected(taken[..i], Heal);
          hp == if old(hp) + heals < PlayerHp then old(hp) + heals else PlayerHp
      {
        assert taken[..i + 1][..i] == taken[..i];
        ApplyPickup(taken[i].kind, now);
      }
      assert taken[..|taken|] == taken;
    }

    /** Pickups, a splicing `forEach`: each pickup visited falls one step, and
        one that then touches the ship is applied and removed. */
    method PickupPass(now: real)
      requires hp <= PlayerHp
      modifies this`powerups, this`hp, this`doubleFire, this`wideBullets, this`shield
      ensures hp <= PlayerHp
      ensures powerups == Sweep(old(powerups), 0, Fall, PickupTouches(player))
      ensures var taken := Caught(old(powerups), 0, Fall, PickupTouches(player));
        (doubleFire == if Collected(taken, DoubleFire) > 0 then Effect(true, now) else old(doubleFire)) &&
        (wideBullets == if Collected(taken, WideBullets) > 0 then Effect(true, now) else old(wideBullets)) &&
        (shield == if Collected(taken, Shield) > 0 then Effect(true, now) else old(shield)) &&
        var heals := Collected(taken, Heal);
        hp == if old(hp) + heals < PlayerHp then old(hp) + heals else PlayerHp
    {
      var rest, taken := ForEachSplice(powerups, Fall, PickupTouches(player));
      powerups := rest;
      ApplyAll(taken, now);
    }

    /** The timer checks at the end of `update`: each effect switches off once
        strictly more than its duration has passed since it was switched on. */
    method ExpireEffects(now: real)
      modifies this`invincible, this`doubleFire, this`wideBullets, this`shield
      ensures invincible == old(invincible).(on := StillOn(old(invincible), now, InvincibleTime))
      ensures doubleFire == old(doubleFire).(on := StillOn(old(doubleFire), now, PowerupDuration))
      ensures wideBullets == old(wideBullets).(on := StillOn(old(wideBullets), now, PowerupDuration))
      ensures shield == old(shield).(on := StillOn(old(shield), now, ShieldDuration))
    {
      if invincible.on && now - invincible.since > InvincibleTime {
        invincible := invincible.(on := false);
      }
      if doubleFire.on && now - doubleFire.since > PowerupDuration {
        doubleFire := doubleFire.(on := false);
      }
      if wideBullets.on && now - wideBullets.since > PowerupDuration {
        wideBullets := wideBullets.(on := false);
      }
      if shield.on && now - shield.since > ShieldDuration {
        shield := shield.(on := false);
      }
    }

    /** The first part of a frame: the clocks advance by the frame's delta,
        the ship fires, the enemies fire, a wave may spawn, and both kinds of
        bullet move, those that left the canvas being dropped. */
    method Advance(time: real)
      requires difficulty.Some?
      modifies this`lastTime, this`gameTime, this`lastShootTime, this`playerBullets,
               this`enemies, this`enemyBullets, this`spawnTimer, this`draws
      ensures lastTime == time && gameTime == old(gameTime) + (time - old(lastTime))
      ensures forall b :: b in playerBullets ==> InFlight(b)
      ensures forall b :: b in enemyBullets ==> Unfallen(height)(b)
    {
      var delta := time - lastTime;
      lastTime := time;
      gameTime := gameTime + delta;

      Shoot(time);
      EnemyShoot(time);
      Reinforce(delta);

      Fly();
    }

    /** The spawn step of a frame, at the tier's pace for the play time so far. */
    method Reinforce(delta: real)
      requires difficulty.Some?
      modifies this`spawnTimer, this`enemies, this`draws
      ensures
        var t := TierOf(difficulty.value);
        var n := WaveSize(gameTime, t.enemyCountMultiplier);
        if old(spawnTimer) + delta > SpawnInterval(baseSpawnInterval, gameTime, t.spawnIncreaseRate) then
          spawnTimer == 0.0 && draws == old(draws) + 2 * n &&
          enemies == old(enemies) + Wave(n, rnd, old(draws), width, EnemySpeed(baseEnemySpeed, gameTime, t.speedIncreaseRate))
        else
          spawnTimer == old(spawnTimer) + delta && enemies == old(enemies) && draws == old(draws)
    {
      var t := TierOf(difficulty.value);
      SpawnWave(delta, SpawnInterval(baseSpawnInterval, gameTime, t.spawnIncreaseRate),
                WaveSize(gameTime, t.enemyCountMultiplier), EnemySpeed(baseEnemySpeed, gameTime, t.speedIncreaseRate));
    }

    /** Both kinds of bullet move; those that left the canvas are dropped. */
    method Fly()
      modifies this`playerBullets, this`enemyBullets
      ensures playerBullets == MapFilter(old(playerBullets), Rise, InFlight)
      ensures enemyBullets == MapFilter(old(enemyBullets), Sink, Unfallen(height))
      ensures forall b :: b in playerBullets ==> InFlight(b)
      ensures forall b :: b in enemyBullets ==> Unfallen(height)(b)
    {
      playerBullets := MapFilter(playerBullets, Rise, InFlight);
      enemyBullets := MapFilter(enemyBullets, Sink, Unfallen(height));
    }

    /** The kill part of a frame: the kill step, then the enemies that left
        the canvas are dropped. */
    method Strike()
      requires Valid() && difficulty.Some?
      modifies this`enemies, this`playerBullets, this`score, this`particles, this`powerups, this`draws
      ensures Valid() && old(score) <= score
      ensures
        var o := KillPass(Marched(old(enemies), EnemySpeed(baseEnemySpeed, gameTime, TierOf(difficulty.value).speedIncreaseRate)),
                          old(playerBullets));
        enemies == Filter(o.survivors, Onscreen(height)) && playerBullets == o.bullets &&
        score == old(score) + KillScore * |o.kills| &&
        particles == old(particles) + Wreckage(o.kills, rnd, old(draws)) &&
        powerups == old(powerups) + Loot(o.kills, rnd, old(draws)) &&
        draws == old(draws) + Spent(o.kills)
      ensures (forall b :: b in old(playerBullets) ==> InFlight(b)) ==>
        forall b :: b in playerBullets ==> InFlight(b)
      ensures forall e :: e in enemies ==> Onscreen(height)(e)
    {
      var tier := TierOf(difficulty.value);
      var speed := EnemySpeed(baseEnemySpeed, gameTime, tier.speedIncreaseRate);
      KillPassSpends(Marched(enemies, speed), playerBullets);
      ResolveKills(speed);
      enemies := Filter(enemies, Onscreen(height));
    }

    /** The damage part of a frame, skipped while the ship is shielded or
        invulnerable: enemy bullets, then enemy bodies, against the ship. */
    method Hurt(now: real)
      modifies this`enemies, this`particles, this`draws, this`enemyBullets, this`hp,
               this`invincible, this`active, this`reports
      ensures old(shield.on) || old(invincible.on) ==> unchanged(this)
      ensures !old(shield.on) && !old(invincible.on) ==>
        enemyBullets == Sweep(old(enemyBullets), 0, Id, BulletStrikes(player)) &&
        enemies == Sweep(old(enemies), 0, Id, EnemyRams(player)) &&
        hp == old(hp) - (|old(enemyBullets)| - |enemyBullets|) - (|old(enemies)| - |enemies|)
      ensures hp <= old(hp)
      ensures forall b :: b in enemyBullets ==> b in old(enemyBullets)
      ensures (forall e :: e in old(enemies) ==> Onscreen(height)(e)) ==>
        forall e :: e in enemies ==> Onscreen(height)(e)
      ensures |old(reports)| <= |reports| && reports[..|old(reports)|] == old(reports)
    {
      if !shield.on && !invincible.on {
        SweepSubset(enemyBullets, BulletStrikes(player));
        BulletHits(now);
        SweepSubset(enemies, EnemyRams(player));
        BodyHits(now);
      }
    }

    /** The combat part of a frame: the kill step, then the damage step. */
    method Fight(now: real)
      requires Valid() && difficulty.Some?
      modifies this`enemies, this`playerBullets, this`score, this`particles, this`powerups, this`draws,
               this`enemyBullets, this`hp, this`invincible, this`active, this`reports
      ensures Valid() && old(score) <= score
      ensures old(shield.on) || old(invincible.on) ==> hp == old(hp)
      ensures (forall b :: b in old(playerBullets) ==> InFlight(b)) ==>
        forall b :: b in playerBullets ==> InFlight(b)
      ensures (forall b :: b in old(enemyBullets) ==> Unfallen(height)(b)) ==>
        forall b :: b in enemyBullets ==> Unfallen(height)(b)
      ensures forall e :: e in enemies ==> Onscreen(height)(e)
      ensures |old(reports)| <= |reports| && reports[..|old(reports)|] == old(reports)
    {
      Strike();
      Hurt(now);
    }

    /** The pickup part of a frame: pickups fall and apply, then those that
        left the canvas are dropped. */
    method Collect(now: real)
      requires Valid()
      modifies this`powerups, this`hp, this`doubleFire, this`wideBullets, this`shield
      ensures Valid() && old(hp) <= hp
      ensures forall p :: p in powerups ==> Uncollected(height)(p)
    {
      PickupPass(now);
      powerups := Filter(powerups, Uncollected(height));
    }

    /** The last part of a frame: pickups, then timed effects expire and the
        fragments age. */
    method Settle(now: real)
      requires Valid()
      modifies this`powerups, this`hp, this`doubleFire, this`wideBullets, this`shield,
               this`invincible, this`particles
      ensures Valid() && old(hp) <= hp
      ensures forall p :: p in powerups ==> Uncollected(height)(p)
      ensures particles == Tick(old(particles)) && forall p :: p in particles ==> p.Alive()
    {
      Collect(now);
      ExpireEffects(now);
      particles := Tick(particles);
    }

    /** `update`: one animation frame of a running game (drawing left out). */
    method Update(time: real, now: real)
      requires Valid()
      modifies this
      ensures Valid()
      ensures !old(active) || old(difficulty).None? ==> unchanged(this)
      ensures difficulty == old(difficulty) && old(score) <= score
      ensures old(shield.on) || old(invincible.on) ==> old(hp) <= hp
      ensures old(active) && old(difficulty).Some? ==>
        lastTime == time && gameTime == old(gameTime) + (time - old(lastTime)) &&
        (forall b :: b in playerBullets ==> InFlight(b)) &&
        (forall b :: b in enemyBullets ==> Unfallen(height)(b)) &&
        (forall p :: p in particles ==> p.Alive()) &&
        (forall e :: e in enemies ==> e.y < height) &&
        (forall p :: p in powerups ==> p.y < height + p.height)
      ensures |old(reports)| <= |reports| && reports[..|old(reports)|] == old(reports)
    {
      if !active || difficulty.None? {
        return;
      }
      Advance(time);
      Fight(now);
      Settle(now);
    }
  }
}
