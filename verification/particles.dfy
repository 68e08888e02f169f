/** Cosmetic explosion fragments, shared by the two shooters that draw them
    (Star Ace and the space shooter). Each frame a fragment moves by its
    velocity and loses one unit of life; it is dropped once its life is no
    longer positive. Colour and size are drawing details and are not kept. */
module Particles {
  import opened Seqs

  datatype Particle = Particle(x: real, y: real, vx: real, vy: real, life: int)
  {
    /** One frame of motion and ageing. */
    function Aged(): Particle
    {
      Particle(x + vx, y + vy, vx, vy, life - 1)
    }

    predicate Alive() { life > 0 }
  }

  /** The per-frame particle filter: move and age every fragment, keep the live ones. */
  function Tick(ps: seq<Particle>): (r: seq<Particle>)
    ensures |r| <= |ps|
    ensures forall p :: p in r ==> p.Alive()
    ensures forall p :: p in r ==> exists q :: q in ps && p == q.Aged()
  {
    MapFilter(ps, (q: Particle) => q.Aged(), (p: Particle) => p.Alive())
  }

  /** A fragment survives the frame exactly when it had more than one unit of life left. */
  lemma TickKeeps(ps: seq<Particle>, q: Particle)
    requires q in ps
    ensures q.Aged() in Tick(ps) <==> q.life > 1
  {
    MapFilterKeeps(ps, (q: Particle) => q.Aged(), (p: Particle) => p.Alive(), q);
  }
}
