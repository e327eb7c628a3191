/**
 * The player bus's parameters as a value: speed upgrades from gas tanks, the damage /
 * invulnerability timer, turbo on and off with the pre-boost speed cached, and the
 * position clamp applied every physics step.
 */
module BusState {

  /** Gas tanks that can still raise the speed. */
  const MaxSpeedUpgrades: int := 5

  /** Movement boundaries of the play field. */
  const MinX: real := -7.46
  const MaxX: real := 7.46
  const MinY: real := -0.73
  const MaxY: real := 1.37

  datatype BusConfig = BusConfig(
    baseSpeed: real, maxSpeed: real, speedIncreasePerTank: real, turboBoostSpeed: real,
    invulnerabilityTime: real)

  /** scaleTarget is the scale the running ScaleToSize ramp ends at, as a multiple of the original. */
  datatype Actor = Actor(
    moveSpeed: real, gasTanksCollected: int, isInvulnerable: bool, invulnerabilityTimer: real,
    isTurboBoostActive: bool, speedBeforeTurbo: real, scaleTarget: real)

  function MinReal(a: real, b: real): real { if a <= b then a else b }

  /** Start: the bus begins at its base speed. */
  function Start(a: Actor, c: BusConfig): (r: Actor)
    ensures r.moveSpeed == c.baseSpeed && r == a.(moveSpeed := r.moveSpeed)
  {
    a.(moveSpeed := c.baseSpeed)
  }

  /** IncreaseSpeed acts only below 5 tanks and below the maximum speed. */
  predicate CanUpgrade(a: Actor, c: BusConfig) {
    a.gasTanksCollected < MaxSpeedUpgrades && a.moveSpeed < c.maxSpeed
  }

  /**
   * A gas tank raises the speed to base + increase * tanks, never above the maximum;
   * otherwise nothing changes.
   */
  function IncreaseSpeed(a: Actor, c: BusConfig): (r: Actor)
    ensures !CanUpgrade(a, c) ==> r == a
    ensures CanUpgrade(a, c) ==>
              r.gasTanksCollected == a.gasTanksCollected + 1
              && r.moveSpeed == MinReal(c.maxSpeed, c.baseSpeed + c.speedIncreasePerTank * r.gasTanksCollected as real)
              && r == a.(gasTanksCollected := r.gasTanksCollected, moveSpeed := r.moveSpeed)
    ensures CanUpgrade(a, c) ==> r.moveSpeed <= c.maxSpeed
    ensures a.gasTanksCollected <= MaxSpeedUpgrades ==> r.gasTanksCollected <= MaxSpeedUpgrades
  {
    if CanUpgrade(a, c) then
      var tanks := a.gasTanksCollected + 1;
      a.(gasTanksCollected := tanks,
         moveSpeed := MinReal(c.maxSpeed, c.baseSpeed + c.speedIncreasePerTank * tanks as real))
    else a
  }

  /** The invulnerability countdown of Update: it runs only while invulnerable and clears the flag at 0. */
  function TickInvulnerability(a: Actor, dt: real): (r: Actor)
    ensures !a.isInvulnerable ==> r == a
    ensures a.isInvulnerable ==>
              r.invulnerabilityTimer == a.invulnerabilityTimer - dt
              && (r.isInvulnerable <==> r.invulnerabilityTimer > 0.0)
              && r == a.(invulnerabilityTimer := r.invulnerabilityTimer, isInvulnerable := r.isInvulnerable)
  {
    if a.isInvulnerable then
      var t := a.invulnerabilityTimer - dt;
      a.(invulnerabilityTimer := t, isInvulnerable := !(t <= 0.0))
    else a
  }

  /** A hit counts (and is passed to the health manager) only when neither invulnerable nor in turbo. */
  predicate DamageLands(a: Actor) {
    !a.isInvulnerable && !a.isTurboBoostActive
  }

  /** TakeDamage: a landed hit starts the invulnerability window; otherwise nothing changes. */
  function TakeDamage(a: Actor, c: BusConfig): (r: Actor)
    ensures !DamageLands(a) ==> r == a
    ensures DamageLands(a) ==>
              r.isInvulnerable && r.invulnerabilityTimer == c.invulnerabilityTime
              && r == a.(isInvulnerable := true, invulnerabilityTimer := r.invulnerabilityTimer)
    ensures !DamageLands(r)
  {
    if DamageLands(a) then a.(isInvulnerable := true, invulnerabilityTimer := c.invulnerabilityTime) else a
  }

  /** Turbo on: cache the current speed, switch to the turbo speed, become invulnerable, ramp the scale up. */
  function ActivateTurbo(a: Actor, c: BusConfig, scaleMultiplier: real): (r: Actor)
    ensures r.isTurboBoostActive && r.isInvulnerable
    ensures r.speedBeforeTurbo == a.moveSpeed && r.moveSpeed == c.turboBoostSpeed
    ensures r.scaleTarget == scaleMultiplier
    ensures r.gasTanksCollected == a.gasTanksCollected && r.invulnerabilityTimer == a.invulnerabilityTimer
  {
    a.(isTurboBoostActive := true, isInvulnerable := true, speedBeforeTurbo := a.moveSpeed,
       moveSpeed := c.turboBoostSpeed, scaleTarget := scaleMultiplier)
  }

  /** Turbo off: restore the cached speed exactly, clear both flags, ramp the scale back to 1. */
  function DeactivateTurbo(a: Actor): (r: Actor)
    ensures !r.isTurboBoostActive && !r.isInvulnerable
    ensures r.moveSpeed == a.speedBeforeTurbo && r.scaleTarget == 1.0
    ensures r.gasTanksCollected == a.gasTanksCollected && r.speedBeforeTurbo == a.speedBeforeTurbo
    ensures r.invulnerabilityTimer == a.invulnerabilityTimer
  {
    a.(isTurboBoostActive := false, isInvulnerable := false, moveSpeed := a.speedBeforeTurbo, scaleTarget := 1.0)
  }

  /** What can happen to the bus between turbo on and turbo off. */
  datatype BusEvent = Frame(dt: real) | Hit | GasTank

  function Apply(a: Actor, c: BusConfig, e: BusEvent): Actor {
    match e
    case Frame(dt) => TickInvulnerability(a, dt)
    case Hit => TakeDamage(a, c)
    case GasTank => IncreaseSpeed(a, c)
  }

  function RunEvents(a: Actor, c: BusConfig, events: seq<BusEvent>): Actor
    decreases |events|
  {
    if events == [] then a else RunEvents(Apply(a, c, events[0]), c, events[1..])
  }

  /**
   * Whatever frames, hits and pickups happen while turbo is on, the bus stays in turbo,
   * no hit lands, the cached speed is kept, and a hit at any point changes nothing.
   */
  lemma {:induction false} TurboPersists(a: Actor, c: BusConfig, events: seq<BusEvent>)
    requires a.isTurboBoostActive
    ensures RunEvents(a, c, events).isTurboBoostActive
    ensures RunEvents(a, c, events).speedBeforeTurbo == a.speedBeforeTurbo
    ensures TakeDamage(RunEvents(a, c, events), c) == RunEvents(a, c, events)
    decreases |events|
  {
    if events != [] {
      var b := Apply(a, c, events[0]);
      assert b.isTurboBoostActive && b.speedBeforeTurbo == a.speedBeforeTurbo;
      TurboPersists(b, c, events[1..]);
    }
  }

  /** Turbo on, anything in between, turbo off: the bus is back at exactly its pre-boost speed. */
  lemma TurboRoundTripRestoresSpeed(a: Actor, c: BusConfig, scaleMultiplier: real, events: seq<BusEvent>)
    ensures DeactivateTurbo(RunEvents(ActivateTurbo(a, c, scaleMultiplier), c, events)).moveSpeed == a.moveSpeed
    ensures DeactivateTurbo(RunEvents(ActivateTurbo(a, c, scaleMultiplier), c, events)).scaleTarget == 1.0
  {
    TurboPersists(ActivateTurbo(a, c, scaleMultiplier), c, events);
  }

  /** The tank count never passes 5, and the speed never passes the maximum, over any pickups. */
  lemma {:induction false} UpgradesStayBounded(a: Actor, c: BusConfig, n: nat)
    requires a.gasTanksCollected <= MaxSpeedUpgrades && a.moveSpeed <= c.maxSpeed
    ensures RunEvents(a, c, seq(n, _ => GasTank)).gasTanksCollected <= MaxSpeedUpgrades
    ensures RunEvents(a, c, seq(n, _ => GasTank)).moveSpeed <= c.maxSpeed
    decreases n
  {
    if n > 0 {
      var events := seq(n, _ => GasTank);
      assert events[1..] == seq(n - 1, _ => GasTank);
      UpgradesStayBounded(IncreaseSpeed(a, c), c, n - 1);
    }
  }

  /** Mathf.Clamp. */
  function Clamp(v: real, lo: real, hi: real): (r: real)
    ensures lo <= hi ==> lo <= r <= hi
    ensures lo <= v <= hi ==> r == v
  {
    if v < lo then lo else if v > hi then hi else v
  }

  /** The clamp of FixedUpdate: the position inside [MinX, MaxX] x [MinY, MaxY]. */
  function ClampPosition(x: real, y: real): (r: (real, real))
    ensures MinX <= r.0 <= MaxX && MinY <= r.1 <= MaxY
    ensures MinX <= x <= MaxX && MinY <= y <= MaxY ==> r == (x, y)
  {
    (Clamp(x, MinX, MaxX), Clamp(y, MinY, MaxY))
  }

  /** Clamping twice is clamping once. */
  lemma ClampPositionIdempotent(x: real, y: real)
    ensures ClampPosition(ClampPosition(x, y).0, ClampPosition(x, y).1) == ClampPosition(x, y)
  {
  }
}
