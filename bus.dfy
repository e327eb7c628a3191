/** BusController: the player bus, whose parameters the game updates in place. */
module Bus {
  import BusState

  class BusController {
    /** Inspector settings: base, maximum and turbo speeds, increase per tank, invulnerability time. */
    const config: BusState.BusConfig
    /** Whether the healthManager reference is set. */
    const hasHealthManager: bool

    var moveSpeed: real
    var gasTanksCollected: int
    var isInvulnerable: bool
    var invulnerabilityTimer: real
    var isTurboBoostActive: bool
    var speedBeforeTurbo: real
    /** Target of the running scale ramp, as a multiple of the original scale. */
    var scaleTarget: real
    /** Rigidbody position and velocity. */
    var x: real
    var y: real
    var velocityX: real
    var velocityY: real
    /** Damage handed on to the health manager so far. */
    var damageDelivered: int

    /** The parameters the core reasons about, as a value. */
    function State(): BusState.Actor
      reads this
    {
      BusState.Actor(moveSpeed, gasTanksCollected, isInvulnerable, invulnerabilityTimer,
                     isTurboBoostActive, speedBeforeTurbo, scaleTarget)
    }

    /** Field initialisers: moveSpeed 4, everything else zero or false, original scale. */
    constructor (config: BusState.BusConfig, hasHealthManager: bool, x: real, y: real)
      ensures this.config == config && this.hasHealthManager == hasHealthManager
      ensures State() == BusState.Actor(4.0, 0, false, 0.0, false, 0.0, 1.0)
      ensures this.x == x && this.y == y && damageDelivered == 0
    {
      this.config := config;
      this.hasHealthManager := hasHealthManager;
      moveSpeed := 4.0;
      gasTanksCollected := 0;
      isInvulnerable := false;
      invulnerabilityTimer := 0.0;
      isTurboBoostActive := false;
      speedBeforeTurbo := 0.0;
      scaleTarget := 1.0;
      this.x := x;
      this.y := y;
      velocityX := 0.0;
      velocityY := 0.0;
      damageDelivered := 0;
    }

    method Start()
      modifies this`moveSpeed
      ensures State() == BusState.Start(old(State()), config)
    {
      moveSpeed := config.baseSpeed;
    }

    method IncreaseSpeed()
      modifies this`gasTanksCollected, this`moveSpeed
      ensures State() == BusState.IncreaseSpeed(old(State()), config)
    {
      if gasTanksCollected < 5 && moveSpeed < config.maxSpeed {
        gasTanksCollected := gasTanksCollected + 1;
        moveSpeed := BusState.MinReal(config.maxSpeed,
                                      config.baseSpeed + config.speedIncreasePerTank * gasTanksCollected as real);
      }
    }

    /** The per-frame invulnerability countdown. */
    method Update(dt: real)
      modifies this`invulnerabilityTimer, this`isInvulnerable
      ensures State() == BusState.TickInvulnerability(old(State()), dt)
    {
      if isInvulnerable {
        invulnerabilityTimer := invulnerabilityTimer - dt;
        if invulnerabilityTimer <= 0.0 {
          isInvulnerable := false;
        }
      }
    }

    /** The physics step: joystick input times speed as velocity, then the position clamp. */
    method FixedUpdate(horizontal: real, vertical: real)
      modifies this`velocityX, this`velocityY, this`x, this`y
      ensures velocityX == horizontal * moveSpeed && velocityY == vertical * moveSpeed
      ensures (x, y) == BusState.ClampPosition(old(x), old(y))
    {
      velocityX := horizontal * moveSpeed;
      velocityY := vertical * moveSpeed;
      x := BusState.Clamp(x, BusState.MinX, BusState.MaxX);
      y := BusState.Clamp(y, BusState.MinY, BusState.MaxY);
    }

    method TakeDamage(damage: int)
      modifies this`isInvulnerable, this`invulnerabilityTimer, this`damageDelivered
      ensures State() == BusState.TakeDamage(old(State()), config)
      ensures damageDelivered ==
                if BusState.DamageLands(old(State())) && hasHealthManager
                then old(damageDelivered) + damage else old(damageDelivered)
    {
      if isInvulnerable || isTurboBoostActive {
        return;
      }
      if hasHealthManager {
        damageDelivered := damageDelivered + damage;
      }
      isInvulnerable := true;
      invulnerabilityTimer := config.invulnerabilityTime;
    }

    method ActivateTurboBoost(scaleMultiplier: real)
      modifies this`isTurboBoostActive, this`isInvulnerable, this`speedBeforeTurbo, this`moveSpeed, this`scaleTarget
      ensures State() == BusState.ActivateTurbo(old(State()), config, scaleMultiplier)
    {
      isTurboBoostActive := true;
      isInvulnerable := true;
      speedBeforeTurbo := moveSpeed;
      moveSpeed := config.turboBoostSpeed;
      scaleTarget := scaleMultiplier;
    }

    method DeactivateTurboBoost()
      modifies this`isTurboBoostActive, this`isInvulnerable, this`moveSpeed, this`scaleTarget
      ensures State() == BusState.DeactivateTurbo(old(State()))
    {
      isTurboBoostActive := false;
      isInvulnerable := false;
      moveSpeed := speedBeforeTurbo;
      scaleTarget := 1.0;
    }
  }
}
