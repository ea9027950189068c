/**
 * The ultra-modern click effect: each click adds a ripple and a burst of
 * eight particles scattered around the click point; one timer removes the
 * ripple and a later one removes that burst. Every `Math.random()` reading
 * is a parameter in [0, 1).
 */
module UltraRipple {
  import opened Lists

  datatype Ripple = Ripple(id: nat, x: real, y: real, size: nat, color: string, delay: real)

  datatype Particle = Particle(id: nat, x: real, y: real, color: string, size: real)

  /** The particles one click creates. */
  const BURST: nat := 8

  function RippleColors(): (r: seq<string>)
    ensures |r| == 8
  {
    ["from-blue-400 to-cyan-400",
     "from-purple-400 to-pink-400",
     "from-green-400 to-emerald-400",
     "from-orange-400 to-red-400",
     "from-indigo-400 to-blue-400",
     "from-pink-400 to-rose-400",
     "from-cyan-400 to-blue-400",
     "from-emerald-400 to-teal-400"]
  }

  function ParticleColors(): (r: seq<string>)
    ensures |r| == 8
  {
    ["bg-blue-400",
     "bg-purple-400",
     "bg-green-400",
     "bg-orange-400",
     "bg-pink-400",
     "bg-cyan-400",
     "bg-emerald-400",
     "bg-indigo-400"]
  }

  /** A reading of `Math.random()`. */
  predicate Unit(r: real)
  {
    0.0 <= r < 1.0
  }

  /** The four random readings one particle uses: x offset, y offset, colour and size. */
  datatype ParticleDraw = ParticleDraw(dx: real, dy: real, color: real, size: real)

  predicate DrawOk(d: ParticleDraw)
  {
    Unit(d.dx) && Unit(d.dy) && Unit(d.color) && Unit(d.size)
  }

  /** `Math.floor(r * n)` for a reading `r`: an index below `n`. */
  function Pick(r: real, n: nat): (i: nat)
    requires Unit(r) && n > 0
    ensures i < n && i as real <= r * n as real < i as real + 1.0
  {
    assert (1.0 - r) * n as real > 0.0;
    assert r * n as real < n as real;
    (r * n as real).Floor
  }

  /** The particle `i` of a burst around (`x`, `y`) whose first id is `base`. */
  function MakeParticle(base: nat, i: nat, x: real, y: real, d: ParticleDraw): (p: Particle)
    requires DrawOk(d)
    ensures p.id == base + i
    ensures x - 50.0 <= p.x < x + 50.0 && y - 50.0 <= p.y < y + 50.0
    ensures 1.0 <= p.size < 4.0
    ensures p.color in ParticleColors()
  {
    Particle(base + i, x + (d.dx - 0.5) * 100.0, y + (d.dy - 0.5) * 100.0,
             ParticleColors()[Pick(d.color, |ParticleColors()|)], d.size * 3.0 + 1.0)
  }

  /** `newParticles`: eight particles with ids `base` to `base + 7`, in that order. */
  function Burst(base: nat, x: real, y: real, draws: seq<ParticleDraw>): (ps: seq<Particle>)
    requires |draws| == BURST && forall i :: 0 <= i < BURST ==> DrawOk(draws[i])
    ensures |ps| == BURST
    ensures forall i :: 0 <= i < BURST ==> ps[i].id == base + i
    ensures forall p | p in ps :: x - 50.0 <= p.x < x + 50.0 && y - 50.0 <= p.y < y + 50.0 && 1.0 <= p.size < 4.0
  {
    seq(BURST, i requires 0 <= i < BURST => MakeParticle(base, i, x, y, draws[i]))
  }

  /** `newParticles.some(np => np.id === id)`. */
  predicate InBurst(ps: seq<Particle>, id: nat)
  {
    exists p | p in ps :: p.id == id
  }

  /** A burst holds exactly the ids `base` to `base + 7`. */
  lemma BurstIds(base: nat, x: real, y: real, draws: seq<ParticleDraw>, id: nat)
    requires |draws| == BURST && forall i :: 0 <= i < BURST ==> DrawOk(draws[i])
    ensures InBurst(Burst(base, x, y, draws), id) <==> base <= id < base + BURST
  {
    var ps := Burst(base, x, y, draws);
    if base <= id < base + BURST {
      assert ps[id - base] in ps;
    }
  }

  function RippleId(r: Ripple): int
  {
    r.id
  }

  function ParticleId(p: Particle): int
  {
    p.id
  }

  /**
   * The particle clean-up for the burst that started at id `base`: every
   * particle with an id of that burst goes, the others stay in order.
   */
  function WithoutBurst(ps: seq<Particle>, base: nat): (r: seq<Particle>)
    ensures forall p | p in r :: p in ps && !(base <= p.id < base + BURST)
    ensures forall p | p in ps && !(base <= p.id < base + BURST) :: p in r
    ensures Subsequence(r, ps)
  {
    var test := (p: Particle) => !(base <= p.id < base + BURST);
    FilterMembers(ps, test);
    FilterIsSubsequence(ps, test);
    Filter(ps, test)
  }

  /** Filtering by the burst's id range removes the same particles as the `some` test over the burst. */
  lemma WithoutBurstMatchesSome(ps: seq<Particle>, base: nat, x: real, y: real, draws: seq<ParticleDraw>)
    requires |draws| == BURST && forall i :: 0 <= i < BURST ==> DrawOk(draws[i])
    ensures WithoutBurst(ps, base) == Filter(ps, (p: Particle) => !InBurst(Burst(base, x, y, draws), p.id))
  {
    var burst := Burst(base, x, y, draws);
    var q := (p: Particle) => !InBurst(burst, p.id);
    forall p: Particle ensures (!(base <= p.id < base + BURST)) == q(p) {
      BurstIds(base, x, y, draws, p.id);
    }
    FilterSameTest(ps, (p: Particle) => !(base <= p.id < base + BURST), q);
  }

  /** The first id of the burst that particle id `id` belongs to. */
  function BurstBase(id: nat): (b: nat)
    ensures b <= id < b + BURST && b % BURST == 0
  {
    id - id % BURST
  }

  lemma BurstBaseOf(base: nat, i: nat)
    requires base % BURST == 0 && i < BURST
    ensures BurstBase(base + i) == base
  {
    assert (base + i) % BURST == i;
  }

  /** Particles on screen: increasing ids below `next`, each in a burst whose timer is still due. */
  predicate ParticlesOk(ps: seq<Particle>, next: nat, due: set<nat>)
  {
    StrictlyIncreasing(ps, ParticleId) &&
    (forall i :: 0 <= i < |ps| ==> ps[i].id < next && BurstBase(ps[i].id) in due) &&
    (forall b | b in due :: b < next)
  }

  lemma ParticlesAppend(ps: seq<Particle>, base: nat, due: set<nat>, x: real, y: real, draws: seq<ParticleDraw>)
    requires |draws| == BURST && forall i :: 0 <= i < BURST ==> DrawOk(draws[i])
    requires ParticlesOk(ps, base, due) && base % BURST == 0
    ensures ParticlesOk(ps + Burst(base, x, y, draws), base + BURST, due + {base})
  {
    var burst := Burst(base, x, y, draws);
    var qs := ps + burst;
    forall i | |ps| <= i < |qs|
      ensures qs[i].id == base + (i - |ps|) && BurstBase(qs[i].id) == base
    {
      assert qs[i] == burst[i - |ps|];
      BurstBaseOf(base, i - |ps|);
    }
  }

  lemma ParticlesRemove(ps: seq<Particle>, next: nat, due: set<nat>, base: nat)
    requires ParticlesOk(ps, next, due)
    ensures ParticlesOk(WithoutBurst(ps, base), next, due - {base})
  {
    var qs := WithoutBurst(ps, base);
    SubsequenceIncreasing(qs, ps, ParticleId);
    forall i | 0 <= i < |qs|
      ensures qs[i].id < next && BurstBase(qs[i].id) in due - {base}
    {
      assert qs[i] in qs;
      var j :| 0 <= j < |ps| && ps[j] == qs[i];
    }
  }

  class UltraRippleView {
    var ripples: seq<Ripple>
    var particles: seq<Particle>
    var clickCount: nat
    var rippleId: nat
    var particleId: nat
    /** Ripple ids whose clean-up timer is still running. */
    var rippleCleanups: set<nat>
    /** First ids of the bursts whose clean-up timer is still running. */
    var burstCleanups: set<nat>

    /**
     * Each click takes one ripple id and eight particle ids, so the
     * counters move together; what is on screen has increasing ids below
     * the counters, and each ripple and each particle still has the timer
     * that removes it running.
     */
    predicate Valid()
      reads this
    {
      rippleId == clickCount && particleId == BURST * clickCount &&
      IdsTracked(ripples, RippleId, rippleId, rippleCleanups) && ParticlesOk(particles, particleId, burstCleanups)
    }

    constructor ()
      ensures Valid()
      ensures ripples == [] && particles == [] && clickCount == 0 && rippleId == 0 && particleId == 0
      ensures rippleCleanups == {} && burstCleanups == {}
    {
      ripples := [];
      particles := [];
      clickCount := 0;
      rippleId := 0;
      particleId := 0;
      rippleCleanups := {};
      burstCleanups := {};
    }

    /**
     * `createRipple` at (`x`, `y`) with the random readings for the colour,
     * the delay and the eight particles: one ripple with the next ripple id
     * and a burst with the next eight particle ids are appended, and their
     * two clean-up timers start.
     */
    method CreateRipple(x: real, y: real, colorDraw: real, delayDraw: real, draws: seq<ParticleDraw>)
      requires Valid() && Unit(colorDraw) && Unit(delayDraw)
      requires |draws| == BURST && forall i :: 0 <= i < BURST ==> DrawOk(draws[i])
      modifies this
      ensures Valid()
      ensures ripples == old(ripples) +
                [Ripple(old(rippleId), x, y, 0, RippleColors()[Pick(colorDraw, |RippleColors()|)], delayDraw * 0.2)]
      ensures particles == old(particles) + Burst(old(particleId), x, y, draws)
      ensures clickCount == old(clickCount) + 1 && rippleId == old(rippleId) + 1 && particleId == old(particleId) + BURST
      ensures rippleCleanups == old(rippleCleanups) + {old(rippleId)}
      ensures burstCleanups == old(burstCleanups) + {old(particleId)}
    {
      var color := RippleColors()[Pick(colorDraw, |RippleColors()|)];
      var newRipple := Ripple(rippleId, x, y, 0, color, delayDraw * 0.2);
      var newParticles := Burst(particleId, x, y, draws);
      IdsTrackedAppend(ripples, RippleId, rippleId, rippleCleanups, newRipple);
      ParticlesAppend(particles, particleId, burstCleanups, x, y, draws);
      ripples := ripples + [newRipple];
      clickCount := clickCount + 1;
      particles := particles + newParticles;
      rippleCleanups := rippleCleanups + {rippleId};
      burstCleanups := burstCleanups + {particleId};
      rippleId := rippleId + 1;
      particleId := particleId + BURST;
    }

    /** The ripple timer for `id` fires: that ripple goes, the others stay in order. */
    method RippleCleanup(id: nat)
      requires Valid() && id in rippleCleanups
      modifies this
      ensures Valid()
      ensures ripples == WithoutId(old(ripples), RippleId, id)
      ensures forall r | r in ripples :: r.id != id
      ensures rippleCleanups == old(rippleCleanups) - {id}
      ensures particles == old(particles) && burstCleanups == old(burstCleanups)
      ensures clickCount == old(clickCount) && rippleId == old(rippleId) && particleId == old(particleId)
    {
      IdsTrackedRemove(ripples, RippleId, rippleId, rippleCleanups, id);
      ripples := WithoutId(ripples, RippleId, id);
      rippleCleanups := rippleCleanups - {id};
    }

    /** The particle timer for the burst starting at `base` fires: exactly that burst's particles go. */
    method BurstCleanup(base: nat)
      requires Valid() && base in burstCleanups
      modifies this
      ensures Valid()
      ensures particles == WithoutBurst(old(particles), base)
      ensures forall p | p in particles :: !(base <= p.id < base + BURST)
      ensures burstCleanups == old(burstCleanups) - {base}
      ensures ripples == old(ripples) && rippleCleanups == old(rippleCleanups)
      ensures clickCount == old(clickCount) && rippleId == old(rippleId) && particleId == old(particleId)
    {
      ParticlesRemove(particles, particleId, burstCleanups, base);
      particles := WithoutBurst(particles, base);
      burstCleanups := burstCleanups - {base};
    }
  }
}
