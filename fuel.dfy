/** FuelBarManager: the fuel gauge as the object the game updates in place. */
module Fuel {
  import opened Wrappers
  import FuelGauge

  class FuelBarManager {
    /** Gas tanks needed to fill the bar (an inspector setting, any int). */
    const maxFuelTanks: int
    var currentFuelTanks: int
    /** Set while a turbo boost runs; blocks AddFuel. */
    var boostActive: bool

    /** The gauge value this object holds. */
    function State(): FuelGauge.Gauge
      reads this
    {
      FuelGauge.Gauge(currentFuelTanks, maxFuelTanks, boostActive)
    }

    ghost predicate Valid()
      reads this
    {
      FuelGauge.InRange(State())
    }

    constructor (maxFuelTanks: int)
      ensures this.maxFuelTanks == maxFuelTanks
      ensures currentFuelTanks == 0 && !boostActive
      ensures Valid()
    {
      this.maxFuelTanks := maxFuelTanks;
      currentFuelTanks := 0;
      boostActive := false;
    }

    method AddFuel()
      modifies this
      ensures State() == FuelGauge.AddFuel(old(State()))
      ensures old(Valid()) ==> Valid()
    {
      if boostActive {
        return;
      }
      if currentFuelTanks < maxFuelTanks {
        currentFuelTanks := currentFuelTanks + 1;
      }
    }

    method RemoveFuel()
      modifies this
      ensures State() == FuelGauge.RemoveFuel(old(State()))
      ensures old(Valid()) ==> Valid()
    {
      if currentFuelTanks > 0 {
        currentFuelTanks := currentFuelTanks - 1;
      }
    }

    function IsFuelBarFull(): (r: bool)
      reads this
      ensures r <==> FuelGauge.IsFull(State())
    {
      currentFuelTanks >= maxFuelTanks
    }

    function GetFuelPercentage(): (r: Option<real>)
      reads this
      ensures r == FuelGauge.Percentage(State())
    {
      if maxFuelTanks == 0 then None else Some(currentFuelTanks as real / maxFuelTanks as real)
    }

    method ResetFuelBar()
      modifies this
      ensures State() == FuelGauge.Reset(old(State()))
      ensures Valid()
    {
      currentFuelTanks := 0;
    }

    method SetBoostActive(active: bool)
      modifies this
      ensures State() == FuelGauge.SetBoostActive(old(State()), active)
      ensures old(Valid()) ==> Valid()
    {
      boostActive := active;
    }

    function CanCollectFuel(): (r: bool)
      reads this
      ensures r <==> FuelGauge.CanCollect(State())
    {
      !boostActive
    }
  }
}
