/** The kill step of Star Ace as the source writes it: two nested `forEach`
    loops that splice both arrays while they iterate. After an enemy is hit,
    its closure value is still checked against the remaining bullets, and each
    further hit splices whatever enemy now sits at the hit enemy's index. */
module StarAceFindings {
  import opened Seqs
  import opened Geometry
  import opened StarAce

  /** The arrays after (part of) the pass, and the enemy value of every hit
      detected, in order: each hit scores, explodes and may drop a pickup. */
  datatype Pass = Pass(enemies: seq<Enemy>, bullets: seq<Bullet>, hits: seq<Enemy>)

  /** The inner `forEach` for the enemy e visited at index eIdx, from bullet
      index b on; n is the bullet array's length when the loop started. */
  function InnerAsWritten(e: Enemy, eIdx: nat, p: Pass, b: nat, n: nat): (r: Pass)
    ensures |r.hits| >= |p.hits| && r.hits[..|p.hits|] == p.hits
    ensures |r.bullets| + (|r.hits| - |p.hits|) == |p.bullets|
    ensures forall x :: x in r.hits[|p.hits|..] ==> x == e
    decreases n - b
  {
    if n <= b || |p.bullets| <= b then p
    else if Overlaps(p.bullets[b].Hitbox(), e.Hitbox()) then
      var r := InnerAsWritten(e, eIdx, Pass(RemoveAt(p.enemies, eIdx), RemoveAt(p.bullets, b), p.hits + [e]), b + 1, n);
      assert r.hits[..|p.hits| + 1][..|p.hits|] == p.hits;
      assert r.hits[|p.hits|..] == [e] + r.hits[|p.hits| + 1..];
      r
    else InnerAsWritten(e, eIdx, p, b + 1, n)
  }

  /** The outer `forEach` from enemy index k on; n is the enemy array's length
      when the loop started. The visited enemy first steps at `speed`. */
  function OuterAsWritten(p: Pass, k: nat, n: nat, speed: real): (r: Pass)
    ensures |r.hits| >= |p.hits| && r.hits[..|p.hits|] == p.hits
    ensures |r.bullets| + |r.hits| == |p.bullets| + |p.hits|
    decreases n - k
  {
    if n <= k || |p.enemies| <= k then p
    else
      var e := p.enemies[k].Advanced(speed);
      var q := InnerAsWritten(e, k, Pass(p.enemies[k := e], p.bullets, p.hits), 0, |p.bullets|);
      var r := OuterAsWritten(q, k + 1, n, speed);
      assert r.hits[..|q.hits|][..|p.hits|] == p.hits;
      r
  }

  /** The whole pass as written, from the frame's enemies and bullets. */
  function KillPassAsWritten(es: seq<Enemy>, bs: seq<Bullet>, speed: real): (r: Pass)
    ensures |r.bullets| + |r.hits| == |bs|
  {
    OuterAsWritten(Pass(es, bs, []), 0, |es|, speed)
  }

  /** The ship's position when a wide volley leaves it straight under an
      enemy 40 px wide at x = 100. */
  const Ship: Box := Box(100.0, 300.0, 40.0, 40.0)
  const Target: Enemy := Enemy(100.0, 100.0, 40.0, 40.0, 2.0, false, 0.0)
  const Bystander: Enemy := Enemy(300.0, 100.0, 40.0, 40.0, 2.0, false, 0.0)

  /** A wide volley that has climbed onto the target. */
  function Volley3(): seq<Bullet>
  {
    [Bullet(102.0, 110.0, 6.0, 15.0, BulletSpeed),
     Bullet(117.0, 110.0, 6.0, 15.0, BulletSpeed),
     Bullet(132.0, 110.0, 6.0, 15.0, BulletSpeed)]
  }

  /** All three bullets of the wide volley cover the target after its step;
      the bystander, 160 px to the right, is under none of them. */
  lemma VolleyOnTarget()
    ensures Volley3() == WideRow(Ship.(y := 110.0))
    ensures forall b :: b in Volley3() ==> Overlaps(b.Hitbox(), Target.Advanced(2.0).Hitbox())
    ensures forall b :: b in Volley3() ==> !Overlaps(b.Hitbox(), Bystander.Advanced(2.0).Hitbox())
  {
  }

  /** As written: the target is hit twice (the middle bullet slides into the
      first one's slot and is skipped, the third then hits again), so the frame
      scores 20, spends two bullets, and the second splice at index 0 removes
      the bystander, which no bullet touched. */
  lemma AsWrittenDoubleKill()
    ensures var r := KillPassAsWritten([Target, Bystander], Volley3(), 2.0);
      |r.hits| == 2 && r.enemies == [] && r.bullets == [Volley3()[1]]
  {
    var t := Target.Advanced(2.0);
    var vs := Volley3();
    var p0 := Pass([Target, Bystander], vs, []);
    var e0 := p0.enemies[0].Advanced(2.0);
    assert e0 == t;
    var p1 := Pass(p0.enemies[0 := t], vs, []);
    assert Overlaps(vs[0].Hitbox(), t.Hitbox());
    var p2 := Pass(RemoveAt(p1.enemies, 0), RemoveAt(vs, 0), [t]);
    assert p2.enemies == [Bystander] && p2.bullets == [vs[1], vs[2]];
    assert Overlaps(p2.bullets[1].Hitbox(), t.Hitbox());
    var p3 := Pass(RemoveAt(p2.enemies, 0), RemoveAt(p2.bullets, 1), [t, t]);
    assert p3.enemies == [] && p3.bullets == [vs[1]];
    assert InnerAsWritten(t, 0, p3, 2, 3) == p3;
    assert InnerAsWritten(t, 0, p2, 1, 3) == p3;
    assert InnerAsWritten(t, 0, p1, 0, 3) == p3;
    assert OuterAsWritten(p3, 1, 2, 2.0) == p3;
  }

  /** The corrected pass on the same frame: the target is destroyed once by
      the first bullet, the bystander survives its step, and two bullets are
      left in flight. */
  lemma CorrectedSingleKill()
    ensures var o := KillPass(Marched([Target, Bystander], 2.0), Volley3());
      o.kills == [Target.Advanced(2.0)] && o.survivors == [Bystander.Advanced(2.0)] &&
      o.bullets == Volley3()[1..]
  {
    var es := Marched([Target, Bystander], 2.0);
    var vs := Volley3();
    assert es == [Target.Advanced(2.0), Bystander.Advanced(2.0)];
    assert FirstHit(vs, es[0]) == 0;
    var left := RemoveAt(vs, 0);
    assert left == [vs[1], vs[2]];
    assert FirstHit(left, es[1]) == 2 by {
      assert !Overlaps(left[0].Hitbox(), es[1].Hitbox());
      assert !Overlaps(left[1].Hitbox(), es[1].Hitbox());
      assert left[1..][1..] == [];
    }
    assert es[1..] == [es[1]] && es[1..][1..] == [];
    assert KillPass(es[1..][1..], left) == KillOutcome([], left, []);
    assert KillPass(es[1..], left) == KillOutcome([es[1]], left, []);
    assert KillPass(es, vs) == KillOutcome([es[1]], left, [es[0]]);
    assert left == vs[1..];
  }

  /** One bullet on the target. As written, the splice slides the bystander
      into the target's slot, the outer loop moves on to the next index, and
      the bystander is never visited: it neither steps nor meets the bullets. The
      corrected pass steps it. */
  lemma AsWrittenSkipsSuccessor()
    ensures var r := KillPassAsWritten([Target, Bystander], [Volley3()[0]], 2.0);
      r.enemies == [Bystander] && r.hits == [Target.Advanced(2.0)] && r.bullets == []
    ensures var o := KillPass(Marched([Target, Bystander], 2.0), [Volley3()[0]]);
      o.survivors == [Bystander.Advanced(2.0)] && o.kills == [Target.Advanced(2.0)] && o.bullets == []
  {
    var t := Target.Advanced(2.0);
    var v := Volley3()[0];
    assert Overlaps(v.Hitbox(), t.Hitbox());
    var p1 := Pass([t, Bystander], [v], []);
    var p2 := Pass([Bystander], [], [t]);
    assert RemoveAt(p1.enemies, 0) == [Bystander] && RemoveAt(p1.bullets, 0) == [];
    assert InnerAsWritten(t, 0, p2, 1, 1) == p2;
    assert InnerAsWritten(t, 0, p1, 0, 1) == p2;
    assert OuterAsWritten(p2, 1, 2, 2.0) == p2;

    var es := Marched([Target, Bystander], 2.0);
    assert es == [t, Bystander.Advanced(2.0)];
    assert FirstHit([v], es[0]) == 0;
    assert es[1..] == [es[1]] && es[1..][1..] == [];
    assert KillPass(es[1..], []) == KillOutcome([es[1]], [], []);
  }
}
