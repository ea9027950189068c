/**
 * The neon click-ripple overlay: each click bumps the click count and the
 * energy gauge and adds a ripple with a fresh id that a timer removes
 * again; an interval drains the energy. Positions are whole pixels here,
 * and the random colour pick is a parameter.
 */
module NeonRipple {
  import opened Lists

  /** A ripple; its `size` is always 0 when made and `timestamp` is the clock reading. */
  datatype Ripple = Ripple(id: nat, x: int, y: int, color: string, size: nat, timestamp: nat)

  function NeonColors(): (r: seq<string>)
    ensures |r| == 6
  {
    ["from-cyan-400 via-blue-500 to-purple-600",
     "from-pink-400 via-purple-500 to-indigo-600",
     "from-emerald-400 via-teal-500 to-cyan-600",
     "from-violet-400 via-purple-500 to-pink-600",
     "from-orange-400 via-red-500 to-pink-600",
     "from-indigo-400 via-purple-500 to-pink-600"]
  }

  const MAX_ENERGY: nat := 100

  /** `Math.min(prev + 10, 100)`. */
  function Charged(e: nat): (r: nat)
    ensures r <= MAX_ENERGY
    ensures e <= MAX_ENERGY ==> e <= r
    ensures r == MAX_ENERGY || r == e + 10
    ensures e + 10 <= MAX_ENERGY ==> r == e + 10
  {
    if e + 10 < MAX_ENERGY then e + 10 else MAX_ENERGY
  }

  /** `Math.max(prev - 1, 0)`. */
  function Drained(e: nat): (r: nat)
    ensures r <= e
    ensures e > 0 ==> r == e - 1
    ensures e == 0 ==> r == 0
  {
    if e >= 1 then e - 1 else 0
  }

  /** `k` drain ticks in a row. */
  function DrainedBy(e: nat, k: nat): nat
  {
    if k == 0 then e else Drained(DrainedBy(e, k - 1))
  }

  /** Draining `k` times leaves `max(e - k, 0)`: a full gauge is empty after 100 ticks. */
  lemma {:induction false} DrainedByFormula(e: nat, k: nat)
    ensures DrainedBy(e, k) == if e >= k then e - k else 0
  {
    if k > 0 {
      DrainedByFormula(e, k - 1);
    }
  }

  function RippleId(r: Ripple): int
  {
    r.id
  }

  class NeonRippleView {
    var ripples: seq<Ripple>
    var clickCount: nat
    var energyLevel: nat
    /** `rippleId.current`: the id the next ripple gets. */
    var nextId: nat
    /** Ids whose clean-up timer is still running. */
    var cleanupsDue: set<nat>

    /**
     * The gauge is within 0..100, the ripples on screen have distinct ids,
     * increasing and below `nextId`, and each of them still has its
     * clean-up timer running.
     */
    predicate Valid()
      reads this
    {
      energyLevel <= MAX_ENERGY && IdsTracked(ripples, RippleId, nextId, cleanupsDue)
    }

    constructor ()
      ensures Valid()
      ensures ripples == [] && clickCount == 0 && energyLevel == 0 && nextId == 0 && cleanupsDue == {}
    {
      ripples := [];
      clickCount := 0;
      energyLevel := 0;
      nextId := 0;
      cleanupsDue := {};
    }

    /** The energy badge shows exactly while there is energy. */
    predicate EnergyBadgeShown()
      reads this
    {
      energyLevel > 0
    }

    /** The click badge shows once there has been a click. */
    predicate ClicksBadgeShown()
      reads this
    {
      clickCount > 0
    }

    /** The background glow shows exactly above 20 energy. */
    predicate GlowShown()
      reads this
    {
      energyLevel > 20
    }

    /**
     * `handleClick` at (`x`, `y`) and clock reading `now`, with colour pick
     * `colorChoice`: one more click, charged energy, and one ripple with
     * the next id appended.
     */
    method Click(x: int, y: int, colorChoice: nat, now: nat) returns (id: nat)
      requires Valid() && colorChoice < |NeonColors()|
      modifies this
      ensures Valid()
      ensures clickCount == old(clickCount) + 1
      ensures energyLevel == Charged(old(energyLevel)) && energyLevel >= old(energyLevel)
      ensures id == old(nextId) && nextId == old(nextId) + 1
      ensures ripples == old(ripples) + [Ripple(id, x, y, NeonColors()[colorChoice], 0, now)]
      ensures cleanupsDue == old(cleanupsDue) + {id} && id !in old(cleanupsDue)
      ensures EnergyBadgeShown() && ClicksBadgeShown()
    {
      var r := Ripple(nextId, x, y, NeonColors()[colorChoice], 0, now);
      IdsTrackedAppend(ripples, RippleId, nextId, cleanupsDue, r);
      clickCount := clickCount + 1;
      energyLevel := Charged(energyLevel);
      id := nextId;
      nextId := nextId + 1;
      ripples := ripples + [r];
      cleanupsDue := cleanupsDue + {id};
    }

    /** The clean-up timer of ripple `id`: that ripple goes, the others stay in order. */
    method RemoveRipple(id: nat)
      requires Valid() && id in cleanupsDue
      modifies this
      ensures Valid()
      ensures ripples == WithoutId(old(ripples), RippleId, id)
      ensures forall r | r in ripples :: r.id != id
      ensures cleanupsDue == old(cleanupsDue) - {id}
      ensures clickCount == old(clickCount) && energyLevel == old(energyLevel) && nextId == old(nextId)
    {
      IdsTrackedRemove(ripples, RippleId, nextId, cleanupsDue, id);
      ripples := WithoutId(ripples, RippleId, id);
      cleanupsDue := cleanupsDue - {id};
    }

    /** One tick of the drain interval. */
    method DrainTick()
      requires Valid()
      modifies this
      ensures Valid()
      ensures energyLevel == Drained(old(energyLevel))
      ensures ripples == old(ripples) && clickCount == old(clickCount) && nextId == old(nextId)
      ensures cleanupsDue == old(cleanupsDue)
    {
      energyLevel := Drained(energyLevel);
    }
  }
}
