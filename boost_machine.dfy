/**
 * The turbo boost coordinator as a value: a two-phase machine, Idle or Active, over the
 * state of the three collaborators it switches (fuel gauge, bus, object pool) and of the
 * turbo button. A collaborator whose reference is not set is None; its effects are skipped.
 *
 * The coroutine's WaitForSeconds is an elapsed-time counter that each frame advances by the
 * frame's delta time; the coroutine resumes on the first frame at which the counter reaches
 * the boost duration.
 */
module BoostMachine {
  import opened Wrappers
  import FuelGauge
  import BusState
  import SpawnSchedule

  datatype Phase = Idle | Active(elapsed: real)

  /** The bus as the coordinator sees it: its parameters and its inspector settings. */
  datatype BusUnit = BusUnit(state: BusState.Actor, config: BusState.BusConfig)

  /** The object pool's turbo switch and food spawn interval. */
  datatype PoolPace = PoolPace(turboBoostActive: bool, spawnInterval: real, originalSpawnInterval: real)

  /** boostDuration and playerScaleMultiplier. */
  datatype Settings = Settings(duration: real, scaleMultiplier: real)

  /** button is the interactable flag of the turbo button, None when there is no button. */
  datatype World = World(
    phase: Phase, gauge: Option<FuelGauge.Gauge>, bus: Option<BusUnit>, pool: Option<PoolPace>,
    button: Option<bool>)

  /** SetTurboBoostMode on the pool's pace. */
  function SetTurbo(p: PoolPace, active: bool): (r: PoolPace)
    ensures r.turboBoostActive == active && r.originalSpawnInterval == p.originalSpawnInterval
    ensures active ==> r.spawnInterval + r.spawnInterval == p.originalSpawnInterval
    ensures !active ==> r.spawnInterval == p.originalSpawnInterval
  {
    p.(turboBoostActive := active, spawnInterval := SpawnSchedule.FoodInterval(p.originalSpawnInterval, active))
  }

  /** Switching the pool's turbo mode twice the same way is switching it once. */
  lemma SetTurboIdempotent(p: PoolPace, active: bool)
    ensures SetTurbo(SetTurbo(p, active), active) == SetTurbo(p, active)
  {
  }

  /** The condition both the button refresh and a press test: a full gauge and no boost running. */
  predicate CanStart(w: World) {
    w.gauge.Some? && FuelGauge.IsFull(w.gauge.value) && w.phase.Idle?
  }

  /** Update: with a button and a gauge, the button is made interactable exactly when a press would start a boost. */
  function Refresh(w: World): (r: World)
    ensures r.phase == w.phase && r.gauge == w.gauge && r.bus == w.bus && r.pool == w.pool
    ensures r.button.Some? <==> w.button.Some?
    ensures w.button.Some? && w.gauge.Some? ==> (r.button.value <==> CanStart(w))
    ensures w.gauge.None? ==> r == w
  {
    if w.button.Some? && w.gauge.Some? then w.(button := Some(CanStart(w))) else w
  }

  /**
   * The part of ActivateTurboBoost before the wait: boost Active, button disabled, gauge
   * emptied and locked, bus into turbo, pool spawning food twice as often.
   */
  function Activate(w: World, s: Settings): (r: World)
    ensures r.phase == Active(0.0)
    ensures r.button == (if w.button.Some? then Some(false) else None)
    ensures r.gauge.Some? <==> w.gauge.Some?
    ensures w.gauge.Some? ==> r.gauge.value == FuelGauge.SetBoostActive(FuelGauge.Reset(w.gauge.value), true)
    ensures r.bus.Some? <==> w.bus.Some?
    ensures w.bus.Some? ==>
              r.bus.value.config == w.bus.value.config &&
              r.bus.value.state == BusState.ActivateTurbo(w.bus.value.state, w.bus.value.config, s.scaleMultiplier)
    ensures r.pool.Some? <==> w.pool.Some?
    ensures w.pool.Some? ==> r.pool.value == SetTurbo(w.pool.value, true)
  {
    World(Active(0.0),
      if w.gauge.Some? then Some(FuelGauge.SetBoostActive(FuelGauge.Reset(w.gauge.value), true)) else None,
      if w.bus.Some? then Some(w.bus.value.(state := BusState.ActivateTurbo(w.bus.value.state, w.bus.value.config, s.scaleMultiplier))) else None,
      if w.pool.Some? then Some(SetTurbo(w.pool.value, true)) else None,
      if w.button.Some? then Some(false) else None)
  }

  /**
   * The part of ActivateTurboBoost after the wait: bus out of turbo, pool back to its
   * original interval, gauge unlocked, boost Idle. The button is left as it was.
   */
  function Revert(w: World): (r: World)
    ensures r.phase == Idle && r.button == w.button
    ensures r.gauge.Some? <==> w.gauge.Some?
    ensures w.gauge.Some? ==> r.gauge.value == FuelGauge.SetBoostActive(w.gauge.value, false)
    ensures r.bus.Some? <==> w.bus.Some?
    ensures w.bus.Some? ==>
              r.bus.value.config == w.bus.value.config &&
              r.bus.value.state == BusState.DeactivateTurbo(w.bus.value.state)
    ensures r.pool.Some? <==> w.pool.Some?
    ensures w.pool.Some? ==> r.pool.value == SetTurbo(w.pool.value, false)
  {
    World(Idle,
      if w.gauge.Some? then Some(FuelGauge.SetBoostActive(w.gauge.value, false)) else None,
      if w.bus.Some? then Some(w.bus.value.(state := BusState.DeactivateTurbo(w.bus.value.state))) else None,
      if w.pool.Some? then Some(SetTurbo(w.pool.value, false)) else None,
      w.button)
  }

  /** OnTurboButtonPressed: the coroutine starts only when a boost may start; otherwise nothing changes. */
  function Press(w: World, s: Settings): World {
    if CanStart(w) then Activate(w, s) else w
  }

  /** One frame of the coroutine's wait: the counter advances, and the boost reverts once it reaches the duration. */
  function Tick(w: World, s: Settings, dt: real): World {
    match w.phase
    case Idle => w
    case Active(e) => if e + dt >= s.duration then Revert(w) else w.(phase := Active(e + dt))
  }

  function Ticks(w: World, s: Settings, dts: seq<real>): World
    decreases |dts|
  {
    if dts == [] then w else Ticks(Tick(w, s, dts[0]), s, dts[1..])
  }

  function Sum(dts: seq<real>): real
    decreases |dts|
  {
    if dts == [] then 0.0 else dts[0] + Sum(dts[1..])
  }

  /** A press starts a boost exactly when the gauge is present and full and no boost runs. */
  lemma PressStartsIffCanStart(w: World, s: Settings)
    ensures w.phase.Idle? && Press(w, s).phase.Active? <==> CanStart(w)
    ensures !CanStart(w) ==> Press(w, s) == w
  {
  }

  /** No overlapping boosts: while one runs, a press changes nothing. */
  lemma PressWhileActiveIgnored(w: World, s: Settings)
    requires w.phase.Active?
    ensures Press(w, s) == w
  {
  }

  /** A refreshed button reads interactable exactly when a press would be accepted. */
  lemma ButtonAgreesWithPress(w: World, s: Settings)
    requires w.button.Some? && w.gauge.Some?
    ensures Refresh(w).button == Some(true) <==> Press(Refresh(w), s).phase != Refresh(w).phase
  {
  }

  /** The gauge is locked whenever a boost runs. */
  ghost predicate LockedWhileActive(w: World) {
    w.phase.Active? && w.gauge.Some? ==> w.gauge.value.boostActive
  }

  lemma LockedWhileActiveKept(w: World, s: Settings, dt: real)
    requires LockedWhileActive(w)
    ensures LockedWhileActive(Press(w, s)) && LockedWhileActive(Tick(w, s, dt)) && LockedWhileActive(Refresh(w))
  {
  }

  /**
   * A missing bus or pool skips only that collaborator's effects: the machine and the other
   * collaborators move exactly as they would with it present.
   */
  lemma MissingCollaboratorSkipped(w: World, s: Settings, dt: real)
    ensures Press(w.(bus := None), s) == Press(w, s).(bus := None)
    ensures Press(w.(pool := None), s) == Press(w, s).(pool := None)
    ensures Tick(w.(bus := None), s, dt) == Tick(w, s, dt).(bus := None)
    ensures Tick(w.(pool := None), s, dt) == Tick(w, s, dt).(pool := None)
  {
  }

  /** Frames after the boost has ended change nothing. */
  lemma {:induction false} IdleTicks(w: World, s: Settings, dts: seq<real>)
    requires w.phase.Idle?
    ensures Ticks(w, s, dts) == w
    decreases |dts|
  {
    if dts != [] {
      IdleTicks(Tick(w, s, dts[0]), s, dts[1..]);
    }
  }

  /** Before the wait is over the counter holds the time elapsed and the collaborators stay boosted. */
  lemma {:induction false} TicksBeforeDuration(w: World, s: Settings, dts: seq<real>)
    requires w.phase.Active?
    requires forall i :: 0 <= i < |dts| ==> dts[i] >= 0.0
    requires w.phase.elapsed + Sum(dts) < s.duration
    ensures Ticks(w, s, dts) == w.(phase := Active(w.phase.elapsed + Sum(dts)))
    decreases |dts|
  {
    if dts != [] {
      var w' := w.(phase := Active(w.phase.elapsed + dts[0]));
      SumNonNegative(dts[1..]);
      assert Tick(w, s, dts[0]) == w';
      TicksBeforeDuration(w', s, dts[1..]);
    }
  }

  lemma {:induction false} SumNonNegative(dts: seq<real>)
    requires forall i :: 0 <= i < |dts| ==> dts[i] >= 0.0
    ensures Sum(dts) >= 0.0
    decreases |dts|
  {
    if dts != [] {
      SumNonNegative(dts[1..]);
    }
  }

  /**
   * Once the frames add up to the rest of the duration the boost has been reverted, whatever
   * the individual frame times: the result is the revert of the boosted state.
   */
  lemma {:induction false} TicksReachDuration(w: World, s: Settings, dts: seq<real>)
    requires w.phase.Active? && w.phase.elapsed < s.duration <= w.phase.elapsed + Sum(dts)
    ensures Ticks(w, s, dts) == Revert(w)
    decreases |dts|
  {
    var e := w.phase.elapsed;
    assert dts != [];
    if e + dts[0] >= s.duration {
      IdleTicks(Revert(w), s, dts[1..]);
    } else {
      var w' := w.(phase := Active(e + dts[0]));
      TicksReachDuration(w', s, dts[1..]);
      assert Revert(w') == Revert(w);
    }
  }

  /**
   * A full boost cycle, press then frames covering the duration, ends Idle with the gauge
   * empty and unlocked, the bus at its pre-boost speed out of turbo, the pool back at its
   * original food interval, and the button still disabled until the next refresh.
   */
  lemma FullCycleRestores(w: World, s: Settings, dts: seq<real>)
    requires CanStart(w) && 0.0 < s.duration <= Sum(dts)
    ensures var r := Ticks(Press(w, s), s, dts);
      r.phase.Idle? &&
      r.gauge == Some(FuelGauge.Gauge(0, w.gauge.value.max, false)) &&
      (w.bus.Some? ==> r.bus.Some? && r.bus.value.state.moveSpeed == w.bus.value.state.moveSpeed &&
                       !r.bus.value.state.isTurboBoostActive && !r.bus.value.state.isInvulnerable) &&
      (w.pool.Some? ==> r.pool.Some? && !r.pool.value.turboBoostActive &&
                        r.pool.value.spawnInterval == w.pool.value.originalSpawnInterval) &&
      r.button == (if w.button.Some? then Some(false) else None)
  {
    TicksReachDuration(Activate(w, s), s, dts);
  }
}
