/** The space shooter: a 400 x 450 canvas, three lives, enemies that fall
    faster as the score grows, and a ship moved by the keyboard or the
    mouse that fires on the space bar or a click. The clock (`Date.now()`),
    the stream `rnd` of `Math.random()` values and the table `heading` of the
    twelve explosion directions (the cosine and sine of i * 30 degrees) are
    inputs. */
module SpaceShooter {
  import opened Seqs
  import opened Geometry
  import opened Particles

  /** A value `Math.random()` can return. */
  type Unit = r: real | 0.0 <= r < 1.0

  const CanvasWidth: real := 400.0
  const CanvasHeight: real := 450.0
  const PlayerSize: real := 40.0
  const BulletSpeed: real := 8.0
  const EnemySize: real := 35.0
  const EnemyKinds: nat := 5
  const StartLives: int := 3
  const StartHighScore: int := 1250
  const FireCooldown: real := 200.0
  const KeyStep: real := 15.0
  const BlastSize: nat := 12
  const BlastLife: int := 30

  datatype Bullet = Bullet(x: real, y: real, width: real, height: real)
  {
    function Hitbox(): Box { Box(x, y, width, height) }
  }

  /** An enemy; its emoji is `kind`'s entry of the emoji table, a drawing detail. */
  datatype Enemy = Enemy(x: real, y: real, width: real, height: real, kind: nat)
  {
    function Hitbox(): Box { Box(x, y, width, height) }
    function CenterX(): real { x + width / 2.0 }
    function CenterY(): real { y + height / 2.0 }
  }

  /** The direction of one explosion fragment. */
  datatype Heading = Heading(cos: real, sin: real)

  /** Shooting an enemy of kind k scores 10 + 5k. */
  function Bounty(e: Enemy): (n: int)
    ensures 10 <= n
  {
    10 + 5 * e.kind
  }

  /** The score of a sequence of kills. */
  function Bounties(es: seq<Enemy>): (n: int)
    ensures 10 * |es| <= n
  {
    if es == [] then 0 else Bounties(es[..|es| - 1]) + Bounty(es[|es| - 1])
  }

  // ---------------------------------------------------------------- spawning

  /** The spawn gap in ms: 1500, less five per point of score, capped at 800 less. */
  function SpawnGap(score: int): real
  {
    1500.0 - (if score * 5 < 800 then score * 5 else 800) as real
  }

  /** For a score that is not negative the gap lies between 700 and 1500 ms,
      and it never grows as the score grows. */
  lemma SpawnGapRange(score: int, higher: int)
    requires 0 <= score <= higher
    ensures 700.0 <= SpawnGap(score) <= 1500.0
    ensures SpawnGap(higher) <= SpawnGap(score)
  {
  }

  /** `Math.floor(Math.random() * 5)`: an index into the five-emoji table. */
  function Kind(roll: Unit): (k: nat)
    ensures k < EnemyKinds
  {
    assert 0.0 <= roll * 5.0 < 5.0;
    (roll * 5.0).Floor
  }

  /** A kind roll picks every kind for a fifth of the rolls: kind k exactly
      for the rolls in [k/5, (k+1)/5). */
  lemma KindBands(roll: Unit, k: nat)
    requires k < EnemyKinds
    ensures Kind(roll) == k <==> (k as real) / 5.0 <= roll < ((k + 1) as real) / 5.0
  {
    var f := (roll * 5.0).Floor;
    assert f as real <= roll * 5.0 < f as real + 1.0;
  }

  /** The enemy spawned from a kind roll and a horizontal roll. */
  function Arrival(kindRoll: Unit, xRoll: Unit): (e: Enemy)
    ensures e.y == -40.0 && e.width == EnemySize && e.height == EnemySize
    ensures 0.0 <= e.x < CanvasWidth - 40.0 && e.kind < EnemyKinds
  {
    Enemy(xRoll * (CanvasWidth - 40.0), -40.0, EnemySize, EnemySize, Kind(kindRoll))
  }

  // --------------------------------------------------------------- explosions

  /** One fragment: the roll chooses its speed in [2, 5). */
  function Spark(x: real, y: real, h: Heading, roll: Unit): Particle
  {
    var speed := 2.0 + roll * 3.0;
    Particle(x, y, h.cos * speed, h.sin * speed, BlastLife)
  }

  /** `createExplosion`: twelve fragments at (x, y), one per heading, each
      with a fresh speed roll. */
  function Blast(x: real, y: real, heading: nat -> Heading, rnd: nat -> Unit, from: nat): (ps: seq<Particle>)
    ensures |ps| == BlastSize
  {
    seq(BlastSize, i requires 0 <= i < BlastSize => Spark(x, y, heading(i), rnd(from + i)))
  }

  /** Every fragment starts at the blast's centre with a life of 30. */
  lemma BlastShape(x: real, y: real, heading: nat -> Heading, rnd: nat -> Unit, from: nat)
    ensures forall p :: p in Blast(x, y, heading, rnd, from) ==> p.x == x && p.y == y && p.life == BlastLife
  {
    var ps := Blast(x, y, heading, rnd, from);
    forall p | p in ps
      ensures p.x == x && p.y == y && p.life == BlastLife
    {
      var i :| 0 <= i < BlastSize && ps[i] == p;
      assert p == Spark(x, y, heading(i), rnd(from + i));
    }
  }

  /** The explosions of a sequence of enemies, each at its centre, drawing
      twelve values per explosion from `from` on. */
  function Debris(es: seq<Enemy>, heading: nat -> Heading, rnd: nat -> Unit, from: nat): (ps: seq<Particle>)
    ensures |ps| == 12 * |es|
  {
    if es == [] then []
    else
      var e := es[|es| - 1];
      Debris(es[..|es| - 1], heading, rnd, from) + Blast(e.CenterX(), e.CenterY(), heading, rnd, from + 12 * (|es| - 1))
  }

  /** The particles of the explosions of a sequence of enemies all start with
      the full life of 30: none of them is already spent. */
  lemma {:induction false} DebrisFresh(es: seq<Enemy>, heading: nat -> Heading, rnd: nat -> Unit, from: nat)
    ensures forall p :: p in Debris(es, heading, rnd, from) ==> p.life == BlastLife
  {
    if es != [] {
      var e := es[|es| - 1];
      DebrisFresh(es[..|es| - 1], heading, rnd, from);
      BlastShape(e.CenterX(), e.CenterY(), heading, rnd, from + 12 * (|es| - 1));
    }
  }

  // ---------------------------------------------------------------- the enemies

  /** The ship's hitbox for enemy contact: its square inset by 10 px on every side. */
  function Core(px: real, py: real): Box
  {
    Box(px + 10.0, py + 10.0, PlayerSize - 20.0, PlayerSize - 20.0)
  }

  function Fallen(fall: real): Enemy -> Enemy { (e: Enemy) => e.(y := e.y + fall) }

  /** The enemy touches the ship's inset hitbox. */
  function Rams(px: real, py: real): Enemy -> bool { (e: Enemy) => Overlaps(e.Hitbox(), Core(px, py)) }

  /** The enemy neither touches the ship nor has passed the bottom edge. */
  function Stays(px: real, py: real): Enemy -> bool
  {
    (e: Enemy) => !Overlaps(e.Hitbox(), Core(px, py)) && !(e.y > CanvasHeight)
  }

  /** An enemy that falls onto the ship is removed and counted as a crash;
      one that falls past the bottom edge is removed; every other enemy stays
      at its new height. */
  lemma DescentPartition(es: seq<Enemy>, fall: real, px: real, py: real, e: Enemy)
    requires e in es
    ensures var d := Fallen(fall)(e);
      (d in MapFilter(es, Fallen(fall), Rams(px, py)) <==> Overlaps(d.Hitbox(), Core(px, py))) &&
      (d in MapFilter(es, Fallen(fall), Stays(px, py)) <==> !Overlaps(d.Hitbox(), Core(px, py)) && d.y <= CanvasHeight)
  {
    MapFilterKeeps(es, Fallen(fall), Rams(px, py), e);
    MapFilterKeeps(es, Fallen(fall), Stays(px, py), e);
  }

  // ----------------------------------------------------------------- the bullets

  function Flown(b: Bullet): Bullet { b.(y := b.y - BulletSpeed) }

  function HitBy(b: Bullet): Enemy -> bool { (e: Enemy) => Overlaps(b.Hitbox(), e.Hitbox()) }

  function MissedBy(b: Bullet): Enemy -> bool { (e: Enemy) => !Overlaps(b.Hitbox(), e.Hitbox()) }

  /** The bullet pass: the bullets still in flight, the enemies left, and
      the enemies shot, in order. */
  datatype Volley = Volley(bullets: seq<Bullet>, enemies: seq<Enemy>, killed: seq<Enemy>)

  /** One call of the outer filter's callback: bullet b (already moved) removes
      every enemy it overlaps, recording them as shot, and stays in flight only
      when it removed none and is still below y = -10. */
  function Pierce(b: Bullet, acc: Volley): Volley
  {
    var hit := Filter(acc.enemies, HitBy(b));
    Volley(acc.bullets + (if b.y > -10.0 && hit == [] then [b] else []),
           Filter(acc.enemies, MissedBy(b)), acc.killed + hit)
  }

  /** The callback's rule, both ways: the bullet is kept exactly when it is
      below y = -10 and overlaps no enemy; the enemies left are exactly those
      it misses; the enemies it shoots are appended, each one it overlaps. */
  lemma PierceRule(b: Bullet, acc: Volley)
    ensures var r := Pierce(b, acc);
      (r.bullets == acc.bullets + [b] <==>
         b.y > -10.0 && forall e :: e in acc.enemies ==> !Overlaps(b.Hitbox(), e.Hitbox())) &&
      (r.bullets == acc.bullets + [b] || r.bullets == acc.bullets)
    ensures var r := Pierce(b, acc);
      forall e :: e in acc.enemies ==> (e in r.enemies <==> !Overlaps(b.Hitbox(), e.Hitbox()))
    ensures var r := Pierce(b, acc);
      r.killed[..|acc.killed|] == acc.killed &&
      forall e :: e in r.killed[|acc.killed|..] ==> e in acc.enemies && Overlaps(b.Hitbox(), e.Hitbox())
  {
    var r := Pierce(b, acc);
    FilterNone(acc.enemies, HitBy(b));
    forall e | e in acc.enemies && !Overlaps(b.Hitbox(), e.Hitbox())
      ensures e in r.enemies
    {
      FilterComplete(acc.enemies, MissedBy(b), e);
    }
    assert r.killed[|acc.killed|..] == Filter(acc.enemies, HitBy(b));
  }

  /** The bullet filter from bullet index i on, after the pass so far left
      `acc`: each bullet in turn moves up 8 px and is put through `Pierce`. */
  function SalvoFrom(bs: seq<Bullet>, i: nat, acc: Volley): (r: Volley)
    ensures |r.bullets| <= |acc.bullets| + |bs| - i || |bs| < i
    decreases |bs| - i
  {
    if |bs| <= i then acc
    else SalvoFrom(bs, i + 1, Pierce(Flown(bs[i]), acc))
  }

  /** The whole bullet filter of a frame. */
  function Salvo(bs: seq<Bullet>, es: seq<Enemy>): (r: Volley)
    ensures |r.bullets| <= |bs|
  {
    SalvoFrom(bs, 0, Volley([], es, []))
  }

  /** The pass only appends to the kills, and every enemy it shoots was under
      one of the bullets of the pass after its move. */
  lemma {:induction false} SalvoShotsHit(bs: seq<Bullet>, i: nat, acc: Volley)
    ensures var r := SalvoFrom(bs, i, acc);
      |acc.killed| <= |r.killed| && r.killed[..|acc.killed|] == acc.killed &&
      forall k :: |acc.killed| <= k < |r.killed| ==>
        exists j :: i <= j < |bs| && Overlaps(Flown(bs[j]).Hitbox(), r.killed[k].Hitbox())
    decreases |bs| - i
  {
    if i < |bs| {
      var next := Pierce(Flown(bs[i]), acc);
      var r := SalvoFrom(bs, i, acc);
      PierceRule(Flown(bs[i]), acc);
      SalvoShotsHit(bs, i + 1, next);
      forall k | |acc.killed| <= k < |next.killed|
        ensures Overlaps(Flown(bs[i]).Hitbox(), r.killed[k].Hitbox())
      {
        assert r.killed[k] == next.killed[k] == next.killed[|acc.killed|..][k - |acc.killed|];
      }
    }
  }

  /** Every enemy is either left or shot, once, and none is made up; every
      enemy shot was under a bullet of the pass. */
  lemma {:induction false} SalvoConserves(bs: seq<Bullet>, i: nat, acc: Volley)
    ensures var r := SalvoFrom(bs, i, acc);
      |r.enemies| + |r.killed| == |acc.enemies| + |acc.killed| &&
      (forall e :: e in r.enemies ==> e in acc.enemies) &&
      (forall e :: e in r.killed ==> e in acc.killed || e in acc.enemies)
    ensures var r := SalvoFrom(bs, i, acc);
      |acc.killed| <= |r.killed| && r.killed[..|acc.killed|] == acc.killed &&
      forall k :: |acc.killed| <= k < |r.killed| ==>
        exists j :: i <= j < |bs| && Overlaps(Flown(bs[j]).Hitbox(), r.killed[k].Hitbox())
    decreases |bs| - i
  {
    SalvoShotsHit(bs, i, acc);
    if i < |bs| {
      var b := Flown(bs[i]);
      FilterSplit(acc.enemies, HitBy(b), MissedBy(b));
      PierceRule(b, acc);
      SalvoConserves(bs, i + 1, Pierce(b, acc));
    }
  }

  /** No enemy left by the pass is under any bullet the pass moved, kept or spent. */
  lemma {:induction false} SalvoClears(bs: seq<Bullet>, i: nat, acc: Volley)
    ensures forall e, j :: e in SalvoFrom(bs, i, acc).enemies && i <= j < |bs| ==>
      !Overlaps(Flown(bs[j]).Hitbox(), e.Hitbox())
    decreases |bs| - i
  {
    if i < |bs| {
      var next := Pierce(Flown(bs[i]), acc);
      SalvoClears(bs, i + 1, next);
      SalvoConserves(bs, i + 1, next);
    }
  }

  /** The bullets still in flight after the pass are the moved forms of
      bullets of the pass, all below y = -10 (`PierceRule` gives the rule
      that kept each one). */
  lemma {:induction false} SalvoKept(bs: seq<Bullet>, i: nat, acc: Volley)
    ensures forall c :: c in SalvoFrom(bs, i, acc).bullets ==>
      c in acc.bullets || (c.y > -10.0 && exists j :: i <= j < |bs| && c == Flown(bs[j]))
    decreases |bs| - i
  {
    if i < |bs| {
      var next := Pierce(Flown(bs[i]), acc);
      SalvoKept(bs, i + 1, next);
    }
  }

  /** The bullet filter of a frame over local copies of the arrays. */
  method SalvoLoop(bs: seq<Bullet>, es: seq<Enemy>) returns (r: Volley)
    ensures r == Salvo(bs, es)
  {
    r := Volley([], es, []);
    for i := 0 to |bs|
      invariant SalvoFrom(bs, i, r) == Salvo(bs, es)
    {
      var b := Flown(bs[i]);
      var hit := Filter(r.enemies, HitBy(b));
      var kept := if b.y > -10.0 && hit == [] then [b] else [];
      r := Volley(r.bullets + kept, Filter(r.enemies, MissedBy(b)), r.killed + hit);
    }
  }

  // ---------------------------------------------------------------- the keyboard

  datatype Key = Left | Right | Up | Down | Space | Other

  /** The keys the handler reacts to: the arrows, WASD in lower case, the space bar. */
  function KeyOf(key: string): (k: Key)
    ensures k == Other <==> key !in {"ArrowLeft", "a", "ArrowRight", "d", "ArrowUp", "w", "ArrowDown", "s", " "}
  {
    if key == "ArrowLeft" || key == "a" then Left
    else if key == "ArrowRight" || key == "d" then Right
    else if key == "ArrowUp" || key == "w" then Up
    else if key == "ArrowDown" || key == "s" then Down
    else if key == " " then Space
    else Other
  }

  class Session {
    const heading: nat -> Heading   // the twelve explosion directions
    const rnd: nat -> Unit          // Math.random(): the n-th value drawn
    var draws: nat

    var score: int
    var highScore: int
    var playing: bool
    var paused: bool
    var over: bool
    var lives: int

    var playerX: real
    var playerY: real
    var bullets: seq<Bullet>
    var enemies: seq<Enemy>
    var particles: seq<Particle>
    var lastBulletTime: real
    var lastEnemyTime: real
    var enemySpeed: real
    var frameCount: nat

    /** The ship stays on the canvas and the score is never negative. */
    ghost predicate Valid()
      reads this
    {
      0.0 <= playerX <= CanvasWidth - PlayerSize && 0.0 <= playerY <= CanvasHeight - PlayerSize &&
      0 <= score
    }

    /** The running predicate every handler and the loop test first. */
    predicate Running()
      reads this
    {
      playing && !paused && !over
    }

    /** The component's initial state. */
    constructor (heading: nat -> Heading, rnd: nat -> Unit)
      ensures Valid() && !playing && !paused && !over
      ensures score == 0 && highScore == StartHighScore && lives == StartLives
      ensures playerX == 200.0 && playerY == 350.0 && enemySpeed == 1.0
      ensures bullets == [] && enemies == [] && particles == [] && draws == 0
      ensures this.heading == heading && this.rnd == rnd
    {
      this.heading := heading;
      this.rnd := rnd;
      draws := 0;
      score, highScore := 0, StartHighScore;
      playing, paused, over := false, false, false;
      lives := StartLives;
      playerX, playerY := 200.0, 350.0;
      bullets, enemies, particles := [], [], [];
      lastBulletTime, lastEnemyTime := 0.0, 0.0;
      enemySpeed := 1.0;
      frameCount := 0;
    }

    /** `startGame`: a running game with three lives, score 0, the ship
        centred 20 px above the bottom edge, empty lists and speed 1.5. */
    method StartGame()
      modifies this
      ensures Valid() && Running()
      ensures score == 0 && lives == StartLives && highScore == old(highScore)
      ensures playerX == 180.0 && playerY == 390.0 && enemySpeed == 1.5
      ensures bullets == [] && enemies == [] && particles == []
      ensures lastBulletTime == 0.0 && lastEnemyTime == 0.0 && frameCount == 0 && draws == old(draws)
    {
      playing, paused, over := true, false, false;
      score, lives := 0, StartLives;
      Restart();
    }

    /** The fresh `gameState` record of a new game. */
    method Restart()
      modifies this`playerX, this`playerY, this`lastBulletTime, this`lastEnemyTime, this`enemySpeed,
               this`frameCount, this`bullets, this`enemies, this`particles
      ensures playerX == 180.0 && playerY == 390.0 && enemySpeed == 1.5
      ensures bullets == [] && enemies == [] && particles == []
      ensures lastBulletTime == 0.0 && lastEnemyTime == 0.0 && frameCount == 0
    {
      playerX := CanvasWidth / 2.0 - PlayerSize / 2.0;
      playerY := CanvasHeight - PlayerSize - 20.0;
      lastBulletTime, lastEnemyTime := 0.0, 0.0;
      enemySpeed := 1.5;
      frameCount := 0;
      bullets, enemies, particles := [], [], [];
    }

    /** `togglePause`. */
    method TogglePause()
      modifies this`paused
      ensures paused == !old(paused)
    {
      paused := !paused;
    }

    /** `resetGame`: back to the start screen with three lives and score 0;
        the ship, the lists and the timers are left as they are. */
    method ResetGame()
      requires Valid()
      modifies this`playing, this`paused, this`over, this`score, this`lives
      ensures Valid() && !Running() && !playing && !paused && !over
      ensures score == 0 && lives == StartLives
    {
      playing, paused, over := false, false, false;
      score, lives := 0, StartLives;
    }

    /** `createExplosion`: twelve fragments pushed one by one. */
    method Explode(x: real, y: real)
      modifies this`particles, this`draws
      ensures particles == old(particles) + Blast(x, y, heading, rnd, old(draws))
      ensures draws == old(draws) + BlastSize
    {
      var ps := particles;
      for i := 0 to BlastSize
        invariant ps == old(particles) + Blast(x, y, heading, rnd, draws)[..i]
      {
        ps := ps + [Spark(x, y, heading(i), rnd(draws + i))];
        assert Blast(x, y, heading, rnd, draws)[..i + 1] == Blast(x, y, heading, rnd, draws)[..i] + [Blast(x, y, heading, rnd, draws)[i]];
      }
      particles := ps;
      draws := draws + BlastSize;
    }

    /** The spawn step: once the gap for the current score has passed since
        the last spawn, one enemy is added above the canvas (a kind roll,
        then a position roll) and the spawn time is refreshed. */
    method Spawn(now: real)
      modifies this`enemies, this`lastEnemyTime, this`draws
      ensures now - old(lastEnemyTime) > SpawnGap(score) ==>
        enemies == old(enemies) + [Arrival(rnd(old(draws)), rnd(old(draws) + 1))] &&
        lastEnemyTime == now && draws == old(draws) + 2
      ensures !(now - old(lastEnemyTime) > SpawnGap(score)) ==>
        enemies == old(enemies) && lastEnemyTime == old(lastEnemyTime) && draws == old(draws)
    {
      if now - lastEnemyTime > SpawnGap(score) {
        enemies := enemies + [Arrival(rnd(draws), rnd(draws + 1))];
        lastEnemyTime := now;
        draws := draws + 2;
      }
    }

    /** One enemy reaching the ship: an explosion at the enemy's centre and a
        life lost; at zero lives the game is over and a score above the high
        score becomes the new high score. */
    method Crash(e: Enemy)
      modifies this`particles, this`draws, this`lives, this`over, this`highScore
      ensures particles == old(particles) + Blast(e.CenterX(), e.CenterY(), heading, rnd, old(draws))
      ensures draws == old(draws) + BlastSize && lives == old(lives) - 1
      ensures over == (old(over) || lives <= 0)
      ensures highScore == (if lives <= 0 && score > old(highScore) then score else old(highScore))
    {
      Explode(e.CenterX(), e.CenterY());
      lives := lives - 1;
      if lives <= 0 {
        over := true;
        if score > highScore {
          highScore := score;
        }
      }
    }

    /** The crashes of a frame, in the order the enemy filter meets them. */
    method Crashes(cs: seq<Enemy>)
      modifies this`particles, this`draws, this`lives, this`over, this`highScore
      ensures particles == old(particles) + Debris(cs, heading, rnd, old(draws))
      ensures draws == old(draws) + 12 * |cs| && lives == old(lives) - |cs|
      ensures over == (old(over) || (0 < |cs| && lives <= 0))
      ensures highScore == (if 0 < |cs| && lives <= 0 && score > old(highScore) then score else old(highScore))
    {
      for i := 0 to |cs|
        invariant particles == old(particles) + Debris(cs[..i], heading, rnd, old(draws))
        invariant draws == old(draws) + 12 * i && lives == old(lives) - i
        invariant over == (old(over) || (0 < i && lives <= 0))
        invariant highScore == (if 0 < i && lives <= 0 && score > old(highScore) then score else old(highScore))
      {
        Crash(cs[i]);
        assert cs[..i + 1][..i] == cs[..i];
      }
      assert cs[..|cs|] == cs;
    }

    /** The kills of a frame, in order: an explosion at each enemy's centre
        and its bounty added to the score. */
    method Rewards(ks: seq<Enemy>)
      modifies this`particles, this`draws, this`score
      ensures particles == old(particles) + Debris(ks, heading, rnd, old(draws))
      ensures draws == old(draws) + 12 * |ks| && score == old(score) + Bounties(ks)
    {
      for i := 0 to |ks|
        invariant particles == old(particles) + Debris(ks[..i], heading, rnd, old(draws))
        invariant draws == old(draws) + 12 * i && score == old(score) + Bounties(ks[..i])
      {
        Explode(ks[i].CenterX(), ks[i].CenterY());
        score := score + Bounty(ks[i]);
        assert ks[..i + 1][..i] == ks[..i];
      }
      assert ks[..|ks|] == ks;
    }

    /** The enemy filter of a frame: every enemy falls by the current speed
        plus a hundredth of the score; those on the ship's inset hitbox crash,
        those past the bottom edge are dropped. */
    method Descend(fall: real)
      modifies this`enemies, this`particles, this`draws, this`lives, this`over, this`highScore
      ensures enemies == MapFilter(old(enemies), Fallen(fall), Stays(playerX, playerY)) &&
        var cs := MapFilter(old(enemies), Fallen(fall), Rams(playerX, playerY));
        lives == old(lives) - |cs| && draws == old(draws) + 12 * |cs| &&
        particles == old(particles) + Debris(cs, heading, rnd, old(draws)) &&
        over == (old(over) || (0 < |cs| && lives <= 0)) &&
        highScore == (if 0 < |cs| && lives <= 0 && score > old(highScore) then score else old(highScore))
      ensures forall e :: e in enemies ==> e.y <= CanvasHeight
    {
      var cs := MapFilter(enemies, Fallen(fall), Rams(playerX, playerY));
      enemies := MapFilter(enemies, Fallen(fall), Stays(playerX, playerY));
      Crashes(cs);
    }

    /** The bullet filter of a frame (see `Salvo`), then the kills' effects. */
    method Strike()
      modifies this`bullets, this`enemies, this`particles, this`draws, this`score
      ensures var r := Salvo(old(bullets), old(enemies));
        bullets == r.bullets && enemies == r.enemies && score == old(score) + Bounties(r.killed) &&
        particles == old(particles) + Debris(r.killed, heading, rnd, old(draws)) &&
        draws == old(draws) + 12 * |r.killed|
      ensures old(score) <= score && forall e :: e in enemies ==> e in old(enemies)
      ensures forall b :: b in bullets ==> b.y > -10.0
      ensures forall b, e :: b in bullets && e in enemies ==> !Overlaps(b.Hitbox(), e.Hitbox())
    {
      SalvoConserves(bullets, 0, Volley([], enemies, []));
      SalvoKept(bullets, 0, Volley([], enemies, []));
      SalvoClears(bullets, 0, Volley([], enemies, []));
      var r := SalvoLoop(bullets, enemies);
      bullets, enemies := r.bullets, r.enemies;
      Rewards(r.killed);
    }

    /** `gameLoop`: one frame of a running game (drawing left out). */
    method Frame(now: real)
      requires Valid()
      modifies this
      ensures Valid()
      ensures !old(Running()) ==> unchanged(this)
      ensures old(Running()) ==> frameCount == old(frameCount) + 1
      ensures old(score) <= score && lives <= old(lives) && old(highScore) <= highScore
      ensures old(over) ==> over
      ensures old(Running()) ==> forall e :: e in enemies ==> e.y <= CanvasHeight
      ensures old(Running()) ==> forall b :: b in bullets ==> b.y > -10.0
      ensures old(Running()) ==> forall b, e :: b in bullets && e in enemies ==> !Overlaps(b.Hitbox(), e.Hitbox())
      ensures old(Running()) ==> forall p :: p in particles ==> p.Alive()
    {
      if !Running() {
        return;
      }
      frameCount := frameCount + 1;
      Spawn(now);
      Battle();
      particles := Tick(particles);
    }

    /** The two collision filters of a frame: the enemies fall and crash,
        then the bullets fly and shoot. */
    method Battle()
      requires Valid()
      modifies this`bullets, this`enemies, this`particles, this`draws, this`score,
               this`lives, this`over, this`highScore
      ensures Valid()
      ensures old(score) <= score && lives <= old(lives) && old(highScore) <= highScore
      ensures old(over) ==> over
      ensures forall e :: e in enemies ==> e.y <= CanvasHeight
      ensures forall b :: b in bullets ==> b.y > -10.0
      ensures forall b, e :: b in bullets && e in enemies ==> !Overlaps(b.Hitbox(), e.Hitbox())
    {
      Descend(enemySpeed + score as real * 0.01);
      Strike();
    }

    /** Moving the ship or firing from the keyboard. */
    method HandleKey(key: string, now: real)
      requires Valid()
      modifies this`playerX, this`playerY, this`bullets, this`lastBulletTime
      ensures Valid()
      ensures !Running() || KeyOf(key) == Other ==> unchanged(this)
      ensures Running() && KeyOf(key) == Left ==> playerX == Max(0.0, old(playerX) - KeyStep) && playerY == old(playerY)
      ensures Running() && KeyOf(key) == Right ==> playerX == Min(CanvasWidth - PlayerSize, old(playerX) + KeyStep) && playerY == old(playerY)
      ensures Running() && KeyOf(key) == Up ==> playerY == Max(0.0, old(playerY) - KeyStep) && playerX == old(playerX)
      ensures Running() && KeyOf(key) == Down ==> playerY == Min(CanvasHeight - PlayerSize, old(playerY) + KeyStep) && playerX == old(playerX)
      ensures KeyOf(key) != Space ==> bullets == old(bullets) && lastBulletTime == old(lastBulletTime)
      ensures Running() && KeyOf(key) == Space ==>
        playerX == old(playerX) && playerY == old(playerY) && Fired(old(bullets), old(lastBulletTime), now)
    {
      if !Running() {
        return;
      }
      match KeyOf(key) {
        case Left => playerX := Max(0.0, playerX - KeyStep);
        case Right => playerX := Min(CanvasWidth - PlayerSize, playerX + KeyStep);
        case Up => playerY := Max(0.0, playerY - KeyStep);
        case Down => playerY := Min(CanvasHeight - PlayerSize, playerY + KeyStep);
        case Space => Fire(now);
        case Other =>
      }
    }

    /** What a shot attempt did: after a cooldown of more than 200 ms one
        8 x 15 bullet appears at the ship's centre and the shot time is
        refreshed; within the cooldown nothing changes. */
    ghost predicate Fired(bullets0: seq<Bullet>, last0: real, now: real)
      reads this
    {
      if now - last0 > FireCooldown then
        bullets == bullets0 + [Bullet(playerX + PlayerSize / 2.0 - 4.0, playerY, 8.0, 15.0)] && lastBulletTime == now
      else
        bullets == bullets0 && lastBulletTime == last0
    }

    /** The shot of the space bar and of a click. */
    method Fire(now: real)
      modifies this`bullets, this`lastBulletTime
      ensures Fired(old(bullets), old(lastBulletTime), now)
    {
      if now - lastBulletTime > FireCooldown {
        bullets := bullets + [Bullet(playerX + PlayerSize / 2.0 - 4.0, playerY, 8.0, 15.0)];
        lastBulletTime := now;
      }
    }

    /** A click fires while the game runs. */
    method HandleClick(now: real)
      modifies this`bullets, this`lastBulletTime
      ensures !Running() ==> bullets == old(bullets) && lastBulletTime == old(lastBulletTime)
      ensures Running() ==> Fired(old(bullets), old(lastBulletTime), now)
    {
      if Running() {
        Fire(now);
      }
    }

    /** The mouse centres the ship horizontally, clamped to the canvas. */
    method HandleMove(clientX: real, rectLeft: real)
      requires Valid()
      modifies this`playerX
      ensures Valid()
      ensures !Running() ==> playerX == old(playerX)
      ensures Running() ==> playerX == Clamp(clientX - rectLeft - PlayerSize / 2.0, 0.0, CanvasWidth - PlayerSize)
    {
      if !Running() {
        return;
      }
      var x := clientX - rectLeft;
      playerX := Max(0.0, Min(CanvasWidth - PlayerSize, x - PlayerSize / 2.0));
    }
  }
}
