/**
 * The fuel gauge as a value: how many gas tanks are banked out of maxFuelTanks, and the
 * lock that the turbo boost sets to stop accumulation while it runs. maxFuelTanks is a
 * plain inspector integer, so it may be zero or negative.
 */
module FuelGauge {
  import opened Wrappers

  datatype Gauge = Gauge(current: int, max: int, boostActive: bool)

  /**
   * The gauge invariant: 0 <= current <= max; with a negative max no tank is ever banked,
   * so current stays 0.
   */
  predicate InRange(g: Gauge) {
    0 <= g.current && (g.current <= g.max || g.current == 0)
  }

  /** A collected gas tank: one more tank unless the gauge is locked by a boost or already full. */
  function AddFuel(g: Gauge): (r: Gauge)
    ensures r.max == g.max && r.boostActive == g.boostActive
    ensures g.boostActive ==> r == g
    ensures !g.boostActive && g.current < g.max ==> r.current == g.current + 1
    ensures g.current >= g.max ==> r == g
    ensures InRange(g) ==> InRange(r)
  {
    if g.boostActive then g
    else if g.current < g.max then g.(current := g.current + 1)
    else g
  }

  /** A lost tank: one fewer unless already empty; the boost lock does not matter here. */
  function RemoveFuel(g: Gauge): (r: Gauge)
    ensures r.max == g.max && r.boostActive == g.boostActive
    ensures g.current > 0 ==> r.current == g.current - 1
    ensures g.current <= 0 ==> r == g
    ensures InRange(g) ==> InRange(r)
  {
    if g.current > 0 then g.(current := g.current - 1) else g
  }

  predicate IsFull(g: Gauge) {
    g.current >= g.max
  }

  /**
   * current / max as a fraction in [0, 1]; with max = 0 the source divides 0 by 0, which
   * is NaN in floating point, modelled as None.
   */
  function Percentage(g: Gauge): (r: Option<real>)
    ensures g.max == 0 <==> r == None
    ensures r.Some? ==> r.value * (g.max as real) == g.current as real
    ensures r.Some? && InRange(g) ==> 0.0 <= r.value <= 1.0
    ensures r.Some? && InRange(g) && g.max > 0 ==> (r.value == 1.0 <==> IsFull(g))
  {
    if g.max == 0 then None
    else
      var p := g.current as real / g.max as real;
      assert p * (g.max as real) == g.current as real;
      Some(p)
  }

  /** Empties the gauge; the boost lock is left as it was. */
  function Reset(g: Gauge): (r: Gauge)
    ensures r.current == 0 && r.max == g.max && r.boostActive == g.boostActive
    ensures InRange(r) && (IsFull(r) <==> g.max <= 0)
  {
    g.(current := 0)
  }

  /** Sets the boost lock and nothing else. */
  function SetBoostActive(g: Gauge, active: bool): (r: Gauge)
    ensures r.boostActive == active && r.current == g.current && r.max == g.max
  {
    g.(boostActive := active)
  }

  predicate CanCollect(g: Gauge) {
    !g.boostActive
  }

  /** A tank lost right after one was banked restores the gauge. */
  lemma RemoveUndoesAdd(g: Gauge)
    requires CanCollect(g) && InRange(g) && g.current < g.max
    ensures RemoveFuel(AddFuel(g)) == g
  {
  }

  /** The gauge after n collected gas tanks. */
  function AddFuelTimes(g: Gauge, n: nat): (r: Gauge)
    ensures r.max == g.max && r.boostActive == g.boostActive
  {
    if n == 0 then g else AddFuel(AddFuelTimes(g, n - 1))
  }

  /**
   * Unlocked, each collected tank banks one until the gauge is full, and then no more:
   * n pickups give min(current + n, max) tanks (with a negative max, none).
   */
  lemma {:induction false} PickupsFillGauge(g: Gauge, n: nat)
    requires CanCollect(g) && InRange(g)
    ensures AddFuelTimes(g, n).current ==
              if g.current + n <= g.max then g.current + n else if g.current <= g.max then g.max else g.current
    ensures g.current + n >= g.max ==> IsFull(AddFuelTimes(g, n))
  {
    if n > 0 {
      PickupsFillGauge(g, n - 1);
    }
  }

  /** While the boost lock is set, any number of pickups leaves the gauge as it is. */
  lemma {:induction false} LockedGaugeIgnoresPickups(g: Gauge, n: nat)
    requires g.boostActive
    ensures AddFuelTimes(g, n) == g
  {
    if n > 0 {
      LockedGaugeIgnoresPickups(g, n - 1);
    }
  }

  /**
   * With maxFuelTanks at most 0 the gauge counts as full from the start and no pickup ever
   * banks a tank; a negative capacity gives a fill fraction of 0 rather than NaN.
   */
  lemma {:induction false} NonPositiveCapacity(g: Gauge, n: nat)
    requires g.max <= 0 && InRange(g)
    ensures g.current == 0 && IsFull(g)
    ensures AddFuelTimes(g, n) == g
    ensures g.max < 0 ==> Percentage(g) == Some(0.0)
  {
    if n > 0 {
      NonPositiveCapacity(g, n - 1);
    }
  }
}
