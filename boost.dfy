/**
 * TurboBoostManager: the object that refreshes the turbo button, starts a boost when it is
 * pressed and, through its coroutine, ends the boost after boostDuration. Each method is
 * proved against the BoostMachine function of the same step.
 */
module Boost {
  import opened Wrappers
  import BoostMachine
  import Fuel
  import Bus
  import Pooling

  class TurboBoostManager {
    /** Inspector references; null when not set. */
    const fuelBarManager: Fuel.FuelBarManager?
    const busController: Bus.BusController?
    const objectPool: Pooling.ObjectPool?
    /** Whether the turboButton reference is set. */
    const hasButton: bool
    const boostDuration: real
    const playerScaleMultiplier: real

    /** The turbo button's interactable flag. */
    var interactable: bool
    var isBoostActive: bool
    /** Time the running coroutine has waited so far. */
    var elapsed: real

    /** The bus and the pool as frame sets, empty when the reference is not set. */
    function Buses(): set<Bus.BusController> {
      if busController != null then {busController} else {}
    }

    function Pools(): set<Pooling.ObjectPool> {
      if objectPool != null then {objectPool} else {}
    }

    function Settings(): BoostMachine.Settings {
      BoostMachine.Settings(boostDuration, playerScaleMultiplier)
    }

    /** The coordinator and its collaborators as a value. */
    function World(): BoostMachine.World
      reads this, fuelBarManager, busController, objectPool
    {
      BoostMachine.World(
        if isBoostActive then BoostMachine.Active(elapsed) else BoostMachine.Idle,
        if fuelBarManager != null then Some(fuelBarManager.State()) else None,
        if busController != null then Some(BoostMachine.BusUnit(busController.State(), busController.config)) else None,
        if objectPool != null then
          Some(BoostMachine.PoolPace(objectPool.turboBoostActive, objectPool.spawnInterval, objectPool.originalSpawnInterval))
        else None,
        if hasButton then Some(interactable) else None)
    }

    /** Field initialisers and Start: no boost running, the button disabled. */
    constructor (fuelBarManager: Fuel.FuelBarManager?, busController: Bus.BusController?,
                 objectPool: Pooling.ObjectPool?, hasButton: bool, boostDuration: real,
                 playerScaleMultiplier: real)
      ensures this.fuelBarManager == fuelBarManager && this.busController == busController
      ensures this.objectPool == objectPool && this.hasButton == hasButton
      ensures Settings() == BoostMachine.Settings(boostDuration, playerScaleMultiplier)
      ensures World().phase == BoostMachine.Idle
      ensures hasButton ==> World().button == Some(false)
    {
      this.fuelBarManager := fuelBarManager;
      this.busController := busController;
      this.objectPool := objectPool;
      this.hasButton := hasButton;
      this.boostDuration := boostDuration;
      this.playerScaleMultiplier := playerScaleMultiplier;
      interactable := false;
      isBoostActive := false;
      elapsed := 0.0;
    }

    /** Update: the button follows "gauge full and no boost running". */
    method Update()
      modifies this`interactable
      ensures World() == BoostMachine.Refresh(old(World()))
    {
      if hasButton && fuelBarManager != null {
        interactable := fuelBarManager.IsFuelBarFull() && !isBoostActive;
      }
    }

    method OnTurboButtonPressed()
      modifies this`isBoostActive, this`elapsed, this`interactable, fuelBarManager
      modifies Buses()`isTurboBoostActive, Buses()`isInvulnerable, Buses()`speedBeforeTurbo,
               Buses()`moveSpeed, Buses()`scaleTarget
      modifies Pools()`turboBoostActive, Pools()`spawnInterval
      ensures World() == BoostMachine.Press(old(World()), Settings())
    {
      if fuelBarManager != null && fuelBarManager.IsFuelBarFull() && !isBoostActive {
        BeginBoost();
      }
    }

    /** ActivateTurboBoost up to its wait. */
    method BeginBoost()
      modifies this`isBoostActive, this`elapsed, this`interactable, fuelBarManager
      modifies Buses()`isTurboBoostActive, Buses()`isInvulnerable, Buses()`speedBeforeTurbo,
               Buses()`moveSpeed, Buses()`scaleTarget
      modifies Pools()`turboBoostActive, Pools()`spawnInterval
      ensures World() == BoostMachine.Activate(old(World()), Settings())
    {
      isBoostActive := true;
      elapsed := 0.0;
      if hasButton {
        interactable := false;
      }
      if fuelBarManager != null {
        fuelBarManager.ResetFuelBar();
        fuelBarManager.SetBoostActive(true);
      }
      if busController != null {
        busController.ActivateTurboBoost(playerScaleMultiplier);
      }
      if objectPool != null {
        objectPool.SetTurboBoostMode(true);
      }
    }

    /** One frame of the running coroutine's WaitForSeconds; on the frame it completes, the boost ends. */
    method Tick(dt: real)
      modifies this`isBoostActive, this`elapsed, fuelBarManager
      modifies Buses()`isTurboBoostActive, Buses()`isInvulnerable, Buses()`moveSpeed,
               Buses()`scaleTarget
      modifies Pools()`turboBoostActive, Pools()`spawnInterval
      ensures World() == BoostMachine.Tick(old(World()), Settings(), dt)
    {
      if isBoostActive {
        if elapsed + dt >= boostDuration {
          EndBoost();
        } else {
          elapsed := elapsed + dt;
        }
      }
    }

    /** ActivateTurboBoost after its wait: every effect reverted, then the boost is over. */
    method EndBoost()
      modifies this`isBoostActive, fuelBarManager
      modifies Buses()`isTurboBoostActive, Buses()`isInvulnerable, Buses()`moveSpeed,
               Buses()`scaleTarget
      modifies Pools()`turboBoostActive, Pools()`spawnInterval
      ensures World() == BoostMachine.Revert(old(World()))
    {
      if busController != null {
        busController.DeactivateTurboBoost();
      }
      if objectPool != null {
        objectPool.SetTurboBoostMode(false);
      }
      if fuelBarManager != null {
        fuelBarManager.SetBoostActive(false);
      }
      isBoostActive := false;
    }

    function IsBoostActive(): (r: bool)
      reads this, fuelBarManager, busController, objectPool
      ensures r <==> World().phase.Active?
    {
      isBoostActive
    }
  }
}
