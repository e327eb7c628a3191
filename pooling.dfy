/**
 * The object pool and the pooled mover.
 *
 * ObjectPool keeps three FIFO queues of inactive objects (food, obstacles, gas tanks), hands
 * them out on spawn timers and takes them back when they leave play. PooledObjectMover is the
 * component on a food object that scrolls it left and returns it to its pool. The two refer
 * to each other, so both live in this one module together with the game objects they move.
 *
 * The pool's ghost sets Objects and Movers are the footprint of everything it has queued;
 * Valid() is the membership invariant: every queued object is tracked and inactive, and no
 * object sits twice in the queues.
 */
module Pooling {
  import opened Wrappers
  import AntiRepeat
  import SpawnSchedule
  import MoverMotion

  /** x coordinate at which Update spawns every object. */
  const SpawnX: real := 11.0
  /** Gas tanks pre-created by Start. */
  const GasTankPoolSize: nat := 5
  /** GetRandomPrefab picks the common list when its roll is at most this. */
  const CommonShare: real := 0.7

  /**
   * The queue ReturnToPool routes an object to, as decided by its components: a
   * GasTankPickup makes it a gas tank, else an obstacle controller (ObstacleController,
   * BouncingTireController or SimpleBouncingTire) an obstacle, else it is food.
   */
  datatype Kind = Food | Obstacle | GasTank

  /** Which of SpriteRenderer, Collider2D and Rigidbody2D an object carries. */
  datatype Parts = Parts(renderer: bool, collider: bool, rigidbody: bool)

  /** The inspector settings of a PooledObjectMover. */
  datatype MoverSettings = MoverSettings(moveSpeed: real, offScreenX: real, pointValue: int)

  /** A prefab: its name, routing kind, parts, and mover settings when it carries a mover. */
  datatype Prefab = Prefab(name: string, kind: Kind, parts: Parts, mover: Option<MoverSettings>)

  /** Lifecycle events of pooled reuse, recorded in order: activation and state reset. */
  datatype Lifecycle = Activated(id: nat) | StateReset(id: nat)

  /** The random values of one GetRandomPrefab call: Random.value and the Random.Range index. */
  datatype Draw = Draw(roll: real, index: nat)

  /** The random values one Update may consume. */
  datatype Dice = Dice(foodY: real, foodDraw: Draw, highLane: bool, laneJitter: real,
                       obstaclePicks: nat -> nat, gasY: real)

  /** The inspector settings of an ObjectPool. */
  datatype PoolConfig = PoolConfig(
    commonPrefabs: seq<Prefab>, rarePrefabs: seq<Prefab>,
    gasTankPrefab: Option<Prefab>, gasTankSpawnInterval: real,
    earlyObstaclePrefabs: seq<Prefab>, midGameObstaclePrefabs: seq<Prefab>,
    lateGameObstaclePrefabs: seq<Prefab>,
    obstacleSpawnInterval: real, spawnIntervalDecreaseAmount: real, minimumSpawnInterval: real,
    highLaneY: real, lowLaneY: real, laneVariance: real,
    spawnRateIncreaseInterval: real, poolSize: int, spawnInterval: real)

  function Schedule(cfg: PoolConfig): SpawnSchedule.ScheduleConfig {
    SpawnSchedule.ScheduleConfig(cfg.obstacleSpawnInterval, cfg.spawnIntervalDecreaseAmount,
                                 cfg.minimumSpawnInterval, cfg.spawnRateIncreaseInterval)
  }

  /**
   * GetRandomPrefab: a roll of at most 0.7 takes a random common prefab, any other roll a
   * random rare one; when the chosen list is empty the other list is tried, the common one
   * only through its first entry. None (a null prefab) only when both lists are empty.
   */
  function GetRandomPrefab(common: seq<Prefab>, rare: seq<Prefab>, d: Draw): (r: Option<Prefab>)
    ensures r.None? <==> common == [] && rare == []
    ensures r.Some? ==> r.value in common || r.value in rare
    ensures d.roll <= CommonShare && common != [] ==> r == Some(common[d.index % |common|])
    ensures (d.roll > CommonShare || common == []) && rare != [] ==> r == Some(rare[d.index % |rare|])
    ensures rare == [] && common != [] ==> r.Some? && r.value in common
    ensures d.roll > CommonShare && rare == [] && common != [] ==> r == Some(common[0])
  {
    if d.roll <= CommonShare && |common| > 0 then Some(common[d.index % |common|])
    else if |rare| > 0 then Some(rare[d.index % |rare|])
    else if |common| > 0 then Some(common[0])
    else None
  }

  /** The y of an obstacle spawn: the chosen lane plus the jitter drawn for it. */
  function LaneY(cfg: PoolConfig, highLane: bool, jitter: real): (y: real)
    ensures -cfg.laneVariance <= jitter <= cfg.laneVariance ==>
              (highLane ==> cfg.highLaneY - cfg.laneVariance <= y <= cfg.highLaneY + cfg.laneVariance) &&
              (!highLane ==> cfg.lowLaneY - cfg.laneVariance <= y <= cfg.lowLaneY + cfg.laneVariance)
  {
    (if highLane then cfg.highLaneY else cfg.lowLaneY) + jitter
  }

  /** The three queues of a pool. */
  datatype QueueState = QueueState(food: seq<GameObject>, obstacles: seq<GameObject>, gasTanks: seq<GameObject>)

  /**
   * What the spawners of one Update start from: the three timers, the three queues, the last
   * obstacle type, the lifecycle log, and whether the head of the food queue carries a mover.
   */
  datatype SpawnerInputs = SpawnerInputs(timer: real, obstacleTimer: real, gasTankTimer: real, queues: QueueState,
                                         last: string, log: seq<Lifecycle>, foodMover: bool)

  function QueueOf(q: QueueState, k: Kind): seq<GameObject> {
    match k
    case Food => q.food
    case Obstacle => q.obstacles
    case GasTank => q.gasTanks
  }

  /**
   * ReturnToPool's routing: the object joins the tail of the queue of its kind, and the
   * other two queues are untouched.
   */
  function Route(q: QueueState, obj: GameObject): (r: QueueState)
    ensures QueueOf(r, obj.kind) == QueueOf(q, obj.kind) + [obj]
    ensures forall k :: k != obj.kind ==> QueueOf(r, k) == QueueOf(q, k)
  {
    match obj.kind
    case GasTank => q.(gasTanks := q.gasTanks + [obj])
    case Obstacle => q.(obstacles := q.obstacles + [obj])
    case Food => q.(food := q.food + [obj])
  }

  /** The type names of queued objects, in queue order. */
  function Types(q: seq<GameObject>): (t: seq<string>)
    ensures |t| == |q| && forall i :: 0 <= i < |q| ==> t[i] == q[i].variant
  {
    seq(|q|, i requires 0 <= i < |q| => q[i].variant)
  }

  /** The retry loop stops at the first queue entry after a whose type is not last. */
  lemma RetryFindsOther(q: seq<GameObject>, last: string, a: nat)
    requires AntiRepeat.Guarded(Types(q), last) && a + 1 <= AntiRepeat.Limit(|q|)
    requires forall j :: 0 <= j <= a ==> q[j].variant == last
    requires q[a + 1].variant != last
    ensures AntiRepeat.ChooseIndex(Types(q), last) == a + 1
  {
    AntiRepeat.ChooseFirstOther(Types(q), last, a);
  }

  /** A retry loop that runs out of entries or attempts keeps the last entry it examined. */
  lemma RetryExhausted(q: seq<GameObject>, last: string, a: nat)
    requires AntiRepeat.Guarded(Types(q), last) && a <= AntiRepeat.Limit(|q|)
    requires a == AntiRepeat.RetryBudget || a + 1 == |q|
    requires forall j :: 0 <= j <= a ==> q[j].variant == last
    ensures AntiRepeat.ChooseIndex(Types(q), last) == a
    ensures AntiRepeat.Without(q[..a + 1], q[a]) == AntiRepeat.Without(q[..a], q[a])
  {
    AntiRepeat.ChooseLastExamined(Types(q), last);
    AntiRepeat.WithoutSnoc(q, a, q[a]);
  }

  /** The names of prefabs, in list order. */
  function Names(ps: seq<Prefab>): (t: seq<string>)
    ensures |t| == |ps| && forall i :: 0 <= i < |ps| ==> t[i] == ps[i].name
  {
    seq(|ps|, i requires 0 <= i < |ps| => ps[i].name)
  }

  /**
   * `after` is `before` followed by one object per entry of `batch`, each an instance of
   * that entry.
   */
  ghost predicate Appended(before: seq<GameObject>, after: seq<GameObject>, batch: seq<Prefab>) {
    |after| == |before| + |batch| && after[..|before|] == before &&
    forall i :: 0 <= i < |batch| ==> after[|before| + i].InstanceOf(batch[i])
  }

  /**
   * The food prefabs Start draws for its first n objects; draws(i) are the random values of
   * the i-th GetRandomPrefab call.
   */
  function FoodBatch(cfg: PoolConfig, draws: nat -> Draw, n: nat): (b: seq<Prefab>)
    requires n > 0 ==> cfg.commonPrefabs != [] || cfg.rarePrefabs != []
    ensures |b| == n
    ensures forall i :: 0 <= i < n ==> GetRandomPrefab(cfg.commonPrefabs, cfg.rarePrefabs, draws(i)) == Some(b[i])
  {
    seq(n, i requires 0 <= i < n => GetRandomPrefab(cfg.commonPrefabs, cfg.rarePrefabs, draws(i)).value)
  }

  /** The gas tanks Start pre-creates: five of the gas tank prefab, none without one. */
  function GasBatch(cfg: PoolConfig): (b: seq<Prefab>)
    ensures cfg.gasTankPrefab.None? ==> b == []
    ensures cfg.gasTankPrefab.Some? ==> |b| == GasTankPoolSize && forall i :: 0 <= i < |b| ==> b[i] == cfg.gasTankPrefab.value
  {
    match cfg.gasTankPrefab
    case None => []
    case Some(p) => SpawnSchedule.Repeat(p, GasTankPoolSize)
  }

  /**
   * The obstacle objects one Update's unlock step adds, given the tiers before it and the new
   * game time: a batch of the mid tier if it unlocks, then a batch of the late tier if it does.
   */
  function UnlockBatch(cfg: PoolConfig, t: SpawnSchedule.Tiers<Prefab>, gameTime: real): seq<Prefab> {
    (if SpawnSchedule.TierUnlocks(t.midUnlocked, gameTime, SpawnSchedule.MidUnlockTime, |cfg.midGameObstaclePrefabs|)
     then SpawnSchedule.ObstacleBatch(cfg.midGameObstaclePrefabs, cfg.poolSize) else []) +
    (if SpawnSchedule.TierUnlocks(t.lateUnlocked, gameTime, SpawnSchedule.LateUnlockTime, |cfg.lateGameObstaclePrefabs|)
     then SpawnSchedule.ObstacleBatch(cfg.lateGameObstaclePrefabs, cfg.poolSize) else [])
  }

  /** The log entries of food handed out from its queue: activation, then a reset when it carries a mover. */
  function FoodHandoutLog(id: nat, hasMover: bool): (l: seq<Lifecycle>)
    ensures |l| >= 1 && l[0] == Activated(id) && (|l| == 2 <==> hasMover)
  {
    [Activated(id)] + (if hasMover then [StateReset(id)] else [])
  }

  /**
   * The log entries of an obstacle or gas tank handed out from its queue: a reset when it
   * carries the controller of that kind, then activation.
   */
  function QueueHandoutLog(obj: GameObject, resetKind: Kind): (l: seq<Lifecycle>)
    ensures |l| >= 1 && l[|l| - 1] == Activated(obj.id) && (|l| == 2 <==> obj.kind == resetKind)
  {
    (if obj.kind == resetKind then [StateReset(obj.id)] else []) + [Activated(obj.id)]
  }

  /** A food spawn faults when it finds the queue empty and GetRandomPrefab has nothing to offer. */
  predicate FoodFaults(cfg: PoolConfig, fired: bool, queueEmpty: bool) {
    fired && queueEmpty && cfg.commonPrefabs == [] && cfg.rarePrefabs == []
  }

  lemma AppendedNone(a: seq<GameObject>)
    ensures Appended(a, a, [])
  {
  }

  function Count(n: int): nat {
    if n > 0 then n else 0
  }

  lemma AppendedChain(a: seq<GameObject>, b: seq<GameObject>, c: seq<GameObject>, x: seq<Prefab>, y: seq<Prefab>)
    requires Appended(a, b, x) && Appended(b, c, y)
    ensures Appended(a, c, x + y)
  {
    assert c[..|a|] == b[..|b|][..|a|];
    forall i | 0 <= i < |x + y| ensures c[|a| + i].InstanceOf((x + y)[i]) {
      if i < |x| {
        assert c[|a| + i] == b[|a| + i];
      } else {
        assert c[|a| + i] == c[|b| + (i - |x|)];
      }
    }
  }

  lemma AppendedOne(a: seq<GameObject>, b: seq<GameObject>, x: seq<Prefab>, o: GameObject, p: Prefab)
    requires Appended(a, b, x) && o.InstanceOf(p)
    ensures Appended(a, b + [o], x + [p])
  {
    assert (b + [o])[..|a|] == b[..|a|];
  }

  /** One more copy of p at the tail extends a run of copies of p. */
  lemma AppendedRepeat(a: seq<GameObject>, b: seq<GameObject>, j: nat, o: GameObject, p: Prefab)
    requires Appended(a, b, SpawnSchedule.Repeat(p, j)) && o.InstanceOf(p)
    ensures Appended(a, b + [o], SpawnSchedule.Repeat(p, j + 1))
  {
    AppendedOne(a, b, SpawnSchedule.Repeat(p, j), o, p);
    assert SpawnSchedule.Repeat(p, j) + [p] == SpawnSchedule.Repeat(p, j + 1);
  }

  /** `done` followed by the batch of the prefabs from k on, with the budget left, is `batch`. */
  ghost predicate BatchRest(prefabs: seq<Prefab>, k: nat, per: nat, budget: int, done: seq<Prefab>, batch: seq<Prefab>)
    requires k <= |prefabs|
  {
    done + SpawnSchedule.Batch(prefabs[k..], per, budget) == batch
  }

  /** One prefab's copies extend the part of a batch made so far. */
  lemma BatchProgress(a: seq<GameObject>, b: seq<GameObject>, c: seq<GameObject>, prefabs: seq<Prefab>,
                      k: nat, per: nat, poolSize: int, objectsCreated: int, created: int,
                      done: seq<Prefab>, batch: seq<Prefab>)
    requires k < |prefabs| && created >= objectsCreated
    requires Appended(a, b, done)
    requires BatchRest(prefabs, k, per, poolSize - objectsCreated, done, batch)
    requires created - objectsCreated == SpawnSchedule.Take(per, poolSize - objectsCreated)
    requires Appended(b, c, SpawnSchedule.Repeat(prefabs[k], created - objectsCreated))
    ensures Appended(a, c, done + SpawnSchedule.Repeat(prefabs[k], created - objectsCreated))
    ensures BatchRest(prefabs, k + 1, per, poolSize - created,
                      done + SpawnSchedule.Repeat(prefabs[k], created - objectsCreated), batch)
  {
    var made := SpawnSchedule.Repeat(prefabs[k], created - objectsCreated);
    AppendedChain(a, b, c, done, made);
    SpawnSchedule.BatchAdvance(prefabs, k, per, poolSize - objectsCreated, done, made, batch);
  }

  /** Three queues with no object twice, within one queue or across two. */
  ghost predicate Separate<T>(a: seq<T>, b: seq<T>, c: seq<T>) {
    AntiRepeat.Distinct(a) && AntiRepeat.Distinct(b) && AntiRepeat.Distinct(c) &&
    (forall o :: o in a ==> o !in b && o !in c) && (forall o :: o in b ==> o !in c)
  }

  /** Enqueueing an object held by none of the queues keeps them separate. */
  lemma SeparateEnqueue<T>(a: seq<T>, b: seq<T>, c: seq<T>, x: T)
    requires Separate(a, b, c) && x !in a && x !in b && x !in c
    ensures Separate(a + [x], b, c) && Separate(a, b + [x], c) && Separate(a, b, c + [x])
  {
    DistinctAppend(a, x);
    DistinctAppend(b, x);
    DistinctAppend(c, x);
  }

  lemma DistinctAppend<T>(s: seq<T>, x: T)
    requires AntiRepeat.Distinct(s) && x !in s
    ensures AntiRepeat.Distinct(s + [x])
  {
  }

  /** Replacing the middle queue by a duplicate-free selection of its objects keeps them separate. */
  lemma SeparateShrink<T>(a: seq<T>, b: seq<T>, b': seq<T>, c: seq<T>)
    requires Separate(a, b, c) && AntiRepeat.Distinct(b') && forall o :: o in b' ==> o in b
    ensures Separate(a, b', c)
  {
  }

  /** Dequeueing the head of any queue keeps them separate. */
  lemma SeparateDequeue<T>(a: seq<T>, b: seq<T>, c: seq<T>)
    requires Separate(a, b, c)
    ensures a != [] ==> Separate(a[1..], b, c)
    ensures b != [] ==> Separate(a, b[1..], c)
    ensures c != [] ==> Separate(a, b, c[1..])
  {
  }

  /**
   * A scene object. The type name, the routing kind and the parts are fixed by the prefab it
   * was instantiated from. The type name stands for two computations that the model takes to
   * agree: a dequeued obstacle's name is its clone name with "(Clone)" removed and trimmed
   * (ObjectPool.cs:282, 295, 322), a newly instantiated one's is the prefab's raw name
   * (ObjectPool.cs:366, 378); a prefab name with surrounding spaces would tell them apart.
   */
  class GameObject {
    const id: nat
    const variant: string
    const kind: Kind
    const parts: Parts
    var active: bool
    var destroyed: bool
    var x: real
    var y: real
    var rendererEnabled: bool
    var colliderEnabled: bool
    var velocityX: real
    var velocityY: real
    var angularVelocity: real
    var mover: PooledObjectMover?

    predicate InstanceOf(p: Prefab) {
      variant == p.name && kind == p.kind && parts == p.parts
    }

    /** The state ResetState establishes: the parts present are enabled and at rest. */
    predicate Clean()
      reads this
    {
      (parts.renderer ==> rendererEnabled) && (parts.collider ==> colliderEnabled) &&
      (parts.rigidbody ==> velocityX == 0.0 && velocityY == 0.0 && angularVelocity == 0.0)
    }

    constructor (id: nat, p: Prefab, x: real, y: real)
      ensures this.id == id && InstanceOf(p)
      ensures active && !destroyed && this.x == x && this.y == y && Clean()
      ensures mover == null
    {
      this.id := id;
      variant := p.name;
      kind := p.kind;
      parts := p.parts;
      active := true;
      destroyed := false;
      this.x := x;
      this.y := y;
      rendererEnabled := true;
      colliderEnabled := true;
      velocityX := 0.0;
      velocityY := 0.0;
      angularVelocity := 0.0;
      mover := null;
    }
  }

  /** PooledObjectMover: scrolls its host left and hands it back to its pool. */
  class PooledObjectMover {
    const host: GameObject
    const moveSpeed: real
    const offScreenX: real
    const pointValue: int
    var pool: ObjectPool?
    var timeAlive: real
    var originalMoveSpeed: real

    constructor (host: GameObject, s: MoverSettings)
      ensures this.host == host && moveSpeed == s.moveSpeed && offScreenX == s.offScreenX
      ensures pointValue == s.pointValue
      ensures pool == null && timeAlive == 0.0 && originalMoveSpeed == 0.0
    {
      this.host := host;
      moveSpeed := s.moveSpeed;
      offScreenX := s.offScreenX;
      pointValue := s.pointValue;
      pool := null;
      timeAlive := 0.0;
      originalMoveSpeed := 0.0;
    }

    /** Initialize: remember the pool to return to. */
    method Initialize(objectPool: ObjectPool)
      modifies this`pool
      ensures pool == objectPool
    {
      pool := objectPool;
    }

    /** OnEnable: restart the age and latch the original speed on first use. */
    method OnEnable()
      modifies this`timeAlive, this`originalMoveSpeed
      ensures timeAlive == 0.0
      ensures originalMoveSpeed == MoverMotion.LatchSpeed(old(originalMoveSpeed), moveSpeed)
    {
      timeAlive := 0.0;
      if originalMoveSpeed == 0.0 {
        originalMoveSpeed := moveSpeed;
      }
    }

    /**
     * The effect of ReturnToPool, relating the state before and after: nothing when the host
     * is already inactive; otherwise the host is deactivated and routed to its queue with
     * nothing else in the pool changed, or destroyed when there is no pool.
     */
    twostate predicate Retired()
      reads this, host, pool
    {
      var p := old(pool);
      pool == p &&
      if !old(host.active) then
        host.active == old(host.active) && host.destroyed == old(host.destroyed) &&
        (p != null ==> unchanged(p))
      else if p != null then
        !host.active && host.destroyed == old(host.destroyed) &&
        p.Queues() == Route(old(p.Queues()), host) &&
        p.Clock() == old(p.Clock()) && p.log == old(p.log)
      else
        host.active && host.destroyed
    }

    /** ReturnToPool: the activeSelf guard makes a second call for the same use a no-op. */
    method ReturnToPool()
      requires pool != null ==> pool.Valid()
      modifies host`active, host`destroyed, pool
      ensures pool == old(pool)
      ensures pool != null ==> pool.Valid()
      ensures Retired()
    {
      if host.active {
        if pool != null {
          pool.ReturnToPool(host);
        } else {
          host.destroyed := true;
        }
      }
    }

    /**
     * Update: one frame of movement at the effective speed, then a return once the host is
     * at or past offScreenX. `boostActive` is whether a TurboBoostManager instance exists and
     * reports an active boost.
     */
    method Update(dt: real, boostActive: bool)
      requires pool != null ==> pool.Valid()
      modifies this`timeAlive, host`x, host`active, host`destroyed, pool
      ensures pool == old(pool)
      ensures pool != null ==> pool.Valid()
      ensures timeAlive == old(timeAlive) + dt
      ensures host.x == MoverMotion.Step(old(host.x), originalMoveSpeed, boostActive, dt)
      ensures MoverMotion.OffScreen(host.x, offScreenX) ==> Retired()
      ensures !MoverMotion.OffScreen(host.x, offScreenX) ==>
                host.active == old(host.active) && host.destroyed == old(host.destroyed) &&
                (pool != null ==> unchanged(pool))
    {
      timeAlive := timeAlive + dt;
      var currentSpeed := MoverMotion.EffectiveSpeed(originalMoveSpeed, boostActive);
      host.x := host.x - currentSpeed * dt;
      if host.x <= offScreenX {
        ReturnToPool();
      }
    }

    /**
     * OnTriggerEnter2D: touching the player scores pointValue (when a score manager exists)
     * and returns the object; any other collider is ignored.
     */
    method OnTriggerEnter2D(otherIsPlayer: bool, scoreManagerPresent: bool) returns (points: int)
      requires pool != null ==> pool.Valid()
      modifies host`active, host`destroyed, pool
      ensures pool == old(pool)
      ensures pool != null ==> pool.Valid()
      ensures points == (if otherIsPlayer && scoreManagerPresent then pointValue else 0)
      ensures otherIsPlayer ==> Retired()
      ensures !otherIsPlayer ==> unchanged(host) && (pool != null ==> unchanged(pool))
    {
      points := 0;
      if otherIsPlayer {
        if scoreManagerPresent {
          points := pointValue;
        }
        ReturnToPool();
      }
    }

    /**
     * ResetState: enable the renderer and the collider and stop the rigidbody, each only when
     * the host has it; everything else on the host is left as it was.
     */
    method ResetState()
      modifies host`rendererEnabled, host`colliderEnabled, host`velocityX, host`velocityY,
               host`angularVelocity
      ensures host.Clean()
      ensures !host.parts.renderer ==> host.rendererEnabled == old(host.rendererEnabled)
      ensures !host.parts.collider ==> host.colliderEnabled == old(host.colliderEnabled)
      ensures !host.parts.rigidbody ==>
                host.velocityX == old(host.velocityX) && host.velocityY == old(host.velocityY) &&
                host.angularVelocity == old(host.angularVelocity)
    {
      if host.parts.renderer {
        host.rendererEnabled := true;
      }
      if host.parts.collider {
        host.colliderEnabled := true;
      }
      if host.parts.rigidbody {
        host.velocityX, host.velocityY := 0.0, 0.0;
        host.angularVelocity := 0.0;
      }
    }
  }

  /**
   * A mover whose host is still active and whose pool is valid can be asked to return twice
   * in one frame (off screen and collected together): the object is queued exactly once.
   */
  method DoubleReturnQueuesOnce(m: PooledObjectMover)
    requires m.pool != null && m.pool.Valid() && m.host.active
    modifies m.host`active, m.host`destroyed, m.pool
    ensures m.pool.Valid()
    ensures m.pool.Queues() == Route(old(m.pool.Queues()), m.host)
  {
    m.ReturnToPool();
    m.ReturnToPool();
  }

  /**
   * The obstacle type drawn when the obstacle queue is empty: with more than one type and a
   * known last type, Random.Range is drawn again, up to RetryBudget draws in all, while it
   * names the last type.
   */
  method PickObstacleIndex(prefabs: seq<Prefab>, last: string, picks: nat -> nat) returns (index: nat)
    requires prefabs != []
    ensures index == AntiRepeat.MissIndex(Names(prefabs), last, picks)
  {
    var n := |prefabs|;
    ghost var names := Names(prefabs);
    index := picks(0) % n;
    if n > 1 && last != "" {
      var attempts: nat := 1;
      while prefabs[index].name == last && attempts < AntiRepeat.RetryBudget
        invariant 1 <= attempts <= AntiRepeat.RetryBudget
        invariant index == picks(attempts - 1) % n
        invariant forall j :: 0 <= j < attempts - 1 ==> names[picks(j) % n] == last
        decreases AntiRepeat.RetryBudget - attempts
      {
        index := picks(attempts) % n;
        attempts := attempts + 1;
      }
      assert attempts - 1 == AntiRepeat.KeptDraw(names, last, picks, 0);
    }
  }

  /** The pool's state other than its queues, its footprint and the last obstacle type. */
  datatype PoolClock = PoolClock(
    timeline: SpawnSchedule.Timeline<Prefab>, timer: real, obstacleTimer: real,
    gasTankTimer: real, spawnInterval: real, originalSpawnInterval: real, turboBoostActive: bool)

  class ObjectPool {
    const cfg: PoolConfig
    var spawnInterval: real
    var originalSpawnInterval: real
    var turboBoostActive: bool
    var pool: seq<GameObject>
    var obstaclePool: seq<GameObject>
    var gasTankPool: seq<GameObject>
    var activeObstaclePrefabs: seq<Prefab>
    var timer: real
    var obstacleTimer: real
    var gasTankTimer: real
    var gameTime: real
    var midGameUnlocked: bool
    var lateGameUnlocked: bool
    var currentObstacleSpawnInterval: real
    var nextSpawnRateIncrease: real
    var lastSpawnedObstacleType: string
    var nextId: nat
    ghost var Objects: set<GameObject>
    ghost var Movers: set<PooledObjectMover>
    ghost var log: seq<Lifecycle>

    function Queues(): QueueState
      reads this`pool, this`obstaclePool, this`gasTankPool
    {
      QueueState(pool, obstaclePool, gasTankPool)
    }

    function Timeline(): SpawnSchedule.Timeline<Prefab>
      reads this`gameTime, this`activeObstaclePrefabs, this`midGameUnlocked, this`lateGameUnlocked,
            this`currentObstacleSpawnInterval, this`nextSpawnRateIncrease
    {
      SpawnSchedule.Timeline(gameTime,
        SpawnSchedule.Tiers(activeObstaclePrefabs, midGameUnlocked, lateGameUnlocked),
        SpawnSchedule.Pace(currentObstacleSpawnInterval, nextSpawnRateIncrease))
    }

    function Clock(): PoolClock
      reads this
    {
      PoolClock(Timeline(), timer, obstacleTimer, gasTankTimer, spawnInterval, originalSpawnInterval,
            turboBoostActive)
    }

    /** A queued object: tracked, inactive, with its mover and the mover's host tracked. */
    ghost predicate Parked(o: GameObject)
      reads this`Objects, this`Movers, o`active, o`mover
    {
      o in Objects && !o.active && (o.mover != null ==> o.mover in Movers && o.mover.host in Objects)
    }

    /** The membership invariant of the three queues. */
    ghost predicate Valid()
      reads this`pool, this`obstaclePool, this`gasTankPool, this`Objects, this`Movers, Objects`active, Objects`mover
    {
      (forall o :: o in pool ==> o in Objects && Parked(o)) &&
      (forall o :: o in obstaclePool ==> o in Objects && Parked(o)) &&
      (forall o :: o in gasTankPool ==> o in Objects && Parked(o)) &&
      Separate(pool, obstaclePool, gasTankPool)
    }

    /** The pool is valid and obj, tracked and inactive, may join a queue it is not in. */
    ghost predicate Admits(obj: GameObject)
      reads this`pool, this`obstaclePool, this`gasTankPool, this`Objects, this`Movers, Objects`active, Objects`mover,
            obj`active, obj`mover
    {
      Valid() && obj in Objects && Parked(obj) &&
      obj !in pool && obj !in obstaclePool && obj !in gasTankPool
    }

    /** The field initialisers: empty queues, no active obstacles, zero clock. */
    constructor (cfg: PoolConfig)
      ensures this.cfg == cfg && Valid()
      ensures Queues() == QueueState([], [], []) && activeObstaclePrefabs == []
      ensures spawnInterval == cfg.spawnInterval && originalSpawnInterval == 0.0 && !turboBoostActive
      ensures timer == 0.0 && obstacleTimer == 0.0 && gasTankTimer == 0.0 && gameTime == 0.0
      ensures !midGameUnlocked && !lateGameUnlocked
      ensures currentObstacleSpawnInterval == 0.0 && nextSpawnRateIncrease == 0.0
      ensures lastSpawnedObstacleType == "" && log == []
      ensures Objects == {} && Movers == {}
    {
      this.cfg := cfg;
      spawnInterval := cfg.spawnInterval;
      originalSpawnInterval := 0.0;
      turboBoostActive := false;
      pool, obstaclePool, gasTankPool := [], [], [];
      activeObstaclePrefabs := [];
      timer, obstacleTimer, gasTankTimer, gameTime := 0.0, 0.0, 0.0, 0.0;
      midGameUnlocked, lateGameUnlocked := false, false;
      currentObstacleSpawnInterval, nextSpawnRateIncrease := 0.0, 0.0;
      lastSpawnedObstacleType := "";
      nextId := 0;
      Objects, Movers, log := {}, {}, [];
    }

    /**
     * Instantiate: a new active object of the prefab at (x, y); a mover on it has run OnEnable.
     */
    method Instantiate(p: Prefab, x: real, y: real) returns (obj: GameObject)
      requires Valid()
      modifies this`nextId, this`Objects, this`Movers
      ensures Valid()
      ensures fresh(obj) && obj.id == old(nextId) && nextId == old(nextId) + 1 && obj.InstanceOf(p)
      ensures obj.active && !obj.destroyed && obj.x == x && obj.y == y && obj.Clean()
      ensures p.mover.None? ==> obj.mover == null
      ensures p.mover.Some? ==>
                obj.mover != null && fresh(obj.mover) && obj.mover.host == obj &&
                obj.mover.moveSpeed == p.mover.value.moveSpeed &&
                obj.mover.offScreenX == p.mover.value.offScreenX &&
                obj.mover.pointValue == p.mover.value.pointValue &&
                obj.mover.pool == null && obj.mover.timeAlive == 0.0 &&
                obj.mover.originalMoveSpeed == MoverMotion.LatchSpeed(0.0, p.mover.value.moveSpeed)
      ensures Objects == old(Objects) + {obj}
      ensures Movers == old(Movers) + (if obj.mover != null then {obj.mover} else {})
    {
      obj := new GameObject(nextId, p, x, y);
      nextId := nextId + 1;
      Objects := Objects + {obj};
      if p.mover.Some? {
        AttachMover(obj, p.mover.value);
      }
    }

    /** The mover component of a new active object, created with it and enabled at once. */
    method AttachMover(obj: GameObject, s: MoverSettings)
      requires Valid() && obj in Objects && obj.active && obj.mover == null
      modifies obj`mover, this`Movers
      ensures Valid()
      ensures obj.mover != null && fresh(obj.mover) && obj.mover.host == obj
      ensures obj.mover.moveSpeed == s.moveSpeed && obj.mover.offScreenX == s.offScreenX
      ensures obj.mover.pointValue == s.pointValue && obj.mover.pool == null
      ensures obj.mover.timeAlive == 0.0 && obj.mover.originalMoveSpeed == MoverMotion.LatchSpeed(0.0, s.moveSpeed)
      ensures Movers == old(Movers) + {obj.mover}
    {
      var m := new PooledObjectMover(obj, s);
      m.OnEnable();
      obj.mover := m;
      Movers := Movers + {m};
    }

    /**
     * SetActive(true) on a parked object: it becomes active and its mover runs OnEnable.
     * Every object handed out by the pool is parked, so the no-op case of SetActive on an
     * active object does not arise here.
     */
    method Activate(obj: GameObject)
      requires Admits(obj)
      modifies obj`active, this`log, obj.mover
      ensures Valid()
      ensures obj.active
      ensures log == old(log) + [Activated(obj.id)]
      ensures obj.mover != null ==>
                obj.mover.timeAlive == 0.0 && obj.mover.pool == old(obj.mover.pool) &&
                obj.mover.originalMoveSpeed ==
                  MoverMotion.LatchSpeed(old(obj.mover.originalMoveSpeed), obj.mover.moveSpeed)
    {
      obj.active := true;
      log := log + [Activated(obj.id)];
      if obj.mover != null {
        obj.mover.OnEnable();
      }
    }

    /** ReturnToPool: deactivate the object and enqueue it on the queue of its kind, unguarded. */
    method ReturnToPool(obj: GameObject)
      requires Valid()
      modifies this, obj`active
      ensures !obj.active
      ensures Queues() == Route(old(Queues()), obj)
      ensures Clock() == old(Clock()) && log == old(log)
      ensures activeObstaclePrefabs == old(activeObstaclePrefabs) && nextId == old(nextId)
      ensures lastSpawnedObstacleType == old(lastSpawnedObstacleType)
      ensures old(Objects) <= Objects && old(Movers) <= Movers
      ensures old(obj.active) ==> Valid()
    {
      Park(obj);
      Enqueue(obj);
    }

    /** SetActive(false) on an object about to be queued, which the pool now tracks. */
    method Park(obj: GameObject)
      requires Valid()
      modifies this`Objects, this`Movers, obj`active
      ensures !obj.active && old(Objects) <= Objects && old(Movers) <= Movers
      ensures old(obj.active) ==> Admits(obj)
    {
      obj.active := false;
      Objects := Objects + {obj} + (if obj.mover != null then {obj.mover.host} else {});
      Movers := Movers + (if obj.mover != null then {obj.mover} else {});
    }

    /** Enqueue on the queue of the object's kind. */
    method Enqueue(obj: GameObject)
      modifies this`pool, this`obstaclePool, this`gasTankPool
      ensures Queues() == Route(old(Queues()), obj)
      ensures old(Admits(obj)) ==> Valid()
    {
      if Admits(obj) {
        SeparateEnqueue(pool, obstaclePool, gasTankPool, obj);
      }
      if obj.kind == GasTank {
        gasTankPool := gasTankPool + [obj];
      } else if obj.kind == Obstacle {
        obstaclePool := obstaclePool + [obj];
      } else {
        pool := pool + [obj];
      }
    }

    /** SetTurboBoostMode: the food interval becomes half the original or the original again. */
    method SetTurboBoostMode(active: bool)
      modifies this`turboBoostActive, this`spawnInterval
      ensures turboBoostActive == active
      ensures spawnInterval == SpawnSchedule.FoodInterval(originalSpawnInterval, active)
    {
      turboBoostActive := active;
      if active {
        spawnInterval := originalSpawnInterval / 2.0;
      } else {
        spawnInterval := originalSpawnInterval;
      }
    }
  

    /** Dequeue the head of the food queue. */
    method DequeueFood() returns (obj: GameObject)
      requires Valid() && pool != []
      modifies this`pool
      ensures obj == old(pool)[0] && pool == old(pool)[1..]
      ensures Admits(obj)
    {
      obj := pool[0];
      assert obj !in pool[1..];
      SeparateDequeue(pool, obstaclePool, gasTankPool);
      pool := pool[1..];
    }

    /** Dequeue the head of the gas tank queue. */
    method DequeueGasTank() returns (obj: GameObject)
      requires Valid() && gasTankPool != []
      modifies this`gasTankPool
      ensures obj == old(gasTankPool)[0] && gasTankPool == old(gasTankPool)[1..]
      ensures Admits(obj)
    {
      obj := gasTankPool[0];
      assert obj !in gasTankPool[1..];
      SeparateDequeue(pool, obstaclePool, gasTankPool);
      gasTankPool := gasTankPool[1..];
    }

    /** Set the position of an object taken off a queue. */
    method Place(obj: GameObject, x: real, y: real)
      requires Admits(obj)
      modifies obj`x, obj`y
      ensures Admits(obj) && obj.x == x && obj.y == y
    {
      obj.x, obj.y := x, y;
    }

    /**
     * GetFromPool: the head of the food queue is placed, activated, bound to this pool and
     * reset (activation before reset). With the queue empty a new object of a random prefab
     * is instantiated and bound but not queued; with no prefab at all Instantiate(null) fails
     * and nothing is created.
     */
    method GetFromPool(x: real, y: real, d: Draw) returns (obj: GameObject?)
      requires Valid()
      modifies this`pool, this`nextId, this`Objects, this`Movers, this`log, Objects, Movers
      ensures Valid()
      ensures old(pool) != [] ==>
                obj == old(pool)[0] && pool == old(pool)[1..] && obj.mover == old(obj.mover) &&
                obj.active && obj.x == x && obj.y == y &&
                log == old(log) + [Activated(obj.id)] + (if obj.mover != null then [StateReset(obj.id)] else []) &&
                (obj.mover != null ==> obj.mover.pool == this && obj.mover.timeAlive == 0.0 && obj.mover.host.Clean())
      ensures old(pool) == [] ==>
                pool == [] && log == old(log) &&
                match GetRandomPrefab(cfg.commonPrefabs, cfg.rarePrefabs, d)
                case None => obj == null
                case Some(p) =>
                  obj != null && fresh(obj) && obj.InstanceOf(p) && obj.active && obj.x == x && obj.y == y &&
                  (obj.mover != null ==> obj.mover.pool == this)
      ensures fresh(Objects - old(Objects)) && fresh(Movers - old(Movers))
    {
      if |pool| > 0 {
        obj := FoodFromQueue(x, y);
      } else {
        obj := FoodFromPrefab(x, y, d);
      }
    }

    /** GetFromPool with food queued. */
    method FoodFromQueue(x: real, y: real) returns (obj: GameObject)
      requires Valid() && pool != []
      modifies this`pool, this`log, Objects, Movers
      ensures Valid()
      ensures obj == old(pool)[0] && pool == old(pool)[1..] && obj.mover == old(obj.mover) &&
              obj.active && obj.x == x && obj.y == y &&
              log == old(log) + [Activated(obj.id)] + (if obj.mover != null then [StateReset(obj.id)] else []) &&
              (obj.mover != null ==> obj.mover.pool == this && obj.mover.timeAlive == 0.0 && obj.mover.host.Clean())
    {
      obj := DequeueFood();
      Place(obj, x, y);
      Activate(obj);
      if obj.mover != null {
        BindAndReset(obj);
      }
    }

    /** The mover of a handed-out food object is bound to this pool and resets its host. */
    method BindAndReset(obj: GameObject)
      requires Valid() && obj.mover != null
      modifies obj.mover`pool, this`log, obj.mover.host`rendererEnabled, obj.mover.host`colliderEnabled,
               obj.mover.host`velocityX, obj.mover.host`velocityY, obj.mover.host`angularVelocity
      ensures Valid()
      ensures obj.mover.pool == this && obj.mover.host.Clean()
      ensures log == old(log) + [StateReset(obj.id)]
    {
      obj.mover.Initialize(this);
      log := log + [StateReset(obj.id)];
      obj.mover.ResetState();
    }

    /** GetFromPool with the food queue empty: Instantiate(GetRandomPrefab()), not queued. */
    method FoodFromPrefab(x: real, y: real, d: Draw) returns (obj: GameObject?)
      requires Valid()
      modifies this`nextId, this`Objects, this`Movers
      ensures Valid()
      ensures match GetRandomPrefab(cfg.commonPrefabs, cfg.rarePrefabs, d)
              case None => obj == null
              case Some(p) =>
                obj != null && fresh(obj) && obj.InstanceOf(p) && obj.active && obj.x == x && obj.y == y &&
                (obj.mover != null ==> obj.mover.pool == this)
      ensures fresh(Objects - old(Objects)) && fresh(Movers - old(Movers))
    {
      var prefab := GetRandomPrefab(cfg.commonPrefabs, cfg.rarePrefabs, d);
      if prefab.None? {
        return null;
      }
      var o := Instantiate(prefab.value, x, y);
      if o.mover != null {
        o.mover.Initialize(this);
      }
      obj := o;
    }

    /**
     * GetGasTankFromPool: the head of the gas tank queue is placed, reset (when it carries a
     * GasTankPickup) and then activated. With the queue empty a new gas tank is instantiated
     * and not queued; without a gas tank prefab Instantiate(null) fails and nothing is created.
     */
    method GetGasTankFromPool(x: real, y: real) returns (obj: GameObject?)
      requires Valid()
      modifies this`gasTankPool, this`nextId, this`Objects, this`Movers, this`log, Objects, Movers
      ensures Valid()
      ensures old(gasTankPool) != [] ==>
                obj == old(gasTankPool)[0] && gasTankPool == old(gasTankPool)[1..] &&
                obj.active && obj.x == x && obj.y == y &&
                log == old(log) + (if obj.kind == GasTank then [StateReset(obj.id)] else []) + [Activated(obj.id)]
      ensures old(gasTankPool) == [] ==>
                gasTankPool == [] && log == old(log) &&
                match cfg.gasTankPrefab
                case None => obj == null
                case Some(p) => obj != null && fresh(obj) && obj.InstanceOf(p) && obj.active && obj.x == x && obj.y == y
    {
      if |gasTankPool| > 0 {
        obj := DequeueGasTank();
        Place(obj, x, y);
        if obj.kind == GasTank {
          log := log + [StateReset(obj.id)];
        }
        Activate(obj);
      } else {
        match cfg.gasTankPrefab
        case None =>
          obj := null;
        case Some(p) =>
          var o := Instantiate(p, x, y);
          obj := o;
      }
    }

    /**
     * The dequeue part of GetObstacleFromPool: take the head; when more than two remain, a
     * last type is known and the head repeats it, dequeue up to RetryBudget more until one of
     * another type turns up, then re-enqueue the passed-over objects except the one taken.
     */
    method TakeObstacle() returns (obj: GameObject)
      requires obstaclePool != []
      modifies this`obstaclePool
      ensures var q := old(obstaclePool);
              var k := AntiRepeat.ChooseIndex(Types(q), lastSpawnedObstacleType);
              obj == q[k] && obstaclePool == AntiRepeat.Remaining(q, k)
    {
      ghost var q := obstaclePool;
      var last := lastSpawnedObstacleType;
      obj := obstaclePool[0];
      obstaclePool := obstaclePool[1..];
      if |obstaclePool| > 2 && last != "" && obj.variant == last {
        var tempList;
        obj, tempList := RetryDequeue(q, obj, last);
        ghost var k := AntiRepeat.ChooseIndex(Types(q), last);
        ghost var rest := obstaclePool;
        PutBack(tempList, obj);
        assert obstaclePool == rest + AntiRepeat.Without(q[..k], q[k]);
      } else {
        assert AntiRepeat.ChooseIndex(Types(q), last) == 0;
        assert q[..0] == [];
      }
    }

    /**
     * The retry loop of GetObstacleFromPool, entered with the head q[0] dequeued and
     * repeating `last`: dequeue up to RetryBudget more until one of another type turns up.
     * The passed-over list, less the object taken, is the queue prefix before it.
     */
    method RetryDequeue(ghost q: seq<GameObject>, head: GameObject, last: string)
      returns (obj: GameObject, tempList: seq<GameObject>)
      requires q != [] && head == q[0] && obstaclePool == q[1..]
      requires AntiRepeat.Guarded(Types(q), last) && head.variant == last
      modifies this`obstaclePool
      ensures var k := AntiRepeat.ChooseIndex(Types(q), last);
              obj == q[k] && obstaclePool == q[k + 1..] &&
              AntiRepeat.Without(tempList, obj) == AntiRepeat.Without(q[..k], q[k])
    {
      obj := head;
      tempList := [obj];
      var attempt := 0;
      while attempt < AntiRepeat.RetryBudget && |obstaclePool| > 0
        invariant 0 <= attempt <= AntiRepeat.Limit(|q|)
        invariant obstaclePool == q[attempt + 1..]
        invariant tempList == q[..attempt + 1]
        invariant obj == q[attempt]
        invariant forall j :: 0 <= j <= attempt ==> q[j].variant == last
      {
        obj := obstaclePool[0];
        obstaclePool := obstaclePool[1..];
        if obj.variant != last {
          RetryFindsOther(q, last, attempt);
          return;
        }
        tempList := tempList + [obj];
        attempt := attempt + 1;
      }
      RetryExhausted(q, last, attempt);
    }

    /** Dequeue the obstacle the anti-repeat rule chooses. */
    method DequeueObstacle() returns (obj: GameObject)
      requires Valid() && obstaclePool != []
      modifies this`obstaclePool
      ensures var q := old(obstaclePool);
              var k := AntiRepeat.ChooseIndex(Types(q), lastSpawnedObstacleType);
              obj == q[k] && obstaclePool == AntiRepeat.Remaining(q, k)
      ensures Admits(obj)
    {
      ghost var q := obstaclePool;
      ghost var k := AntiRepeat.ChooseIndex(Types(q), lastSpawnedObstacleType);
      obj := TakeObstacle();
      AntiRepeat.RemainingMembers(q, k);
      SeparateShrink(pool, q, obstaclePool, gasTankPool);
    }

    /** Re-enqueue the passed-over objects in order, skipping the one taken. */
    method PutBack(tempList: seq<GameObject>, obj: GameObject)
      modifies this`obstaclePool
      ensures obstaclePool == old(obstaclePool) + AntiRepeat.Without(tempList, obj)
    {
      var i := 0;
      while i < |tempList|
        invariant 0 <= i <= |tempList|
        invariant obstaclePool == old(obstaclePool) + AntiRepeat.Without(tempList[..i], obj)
      {
        AntiRepeat.WithoutSnoc(tempList, i, obj);
        if tempList[i] != obj {
          obstaclePool := obstaclePool + [tempList[i]];
        }
        i := i + 1;
      }
      assert tempList[..i] == tempList;
    }

    /**
     * GetObstacleFromPool. With no active obstacle type nothing happens. Otherwise the object
     * chosen by the anti-repeat rule is placed, its type recorded, its controllers reset and
     * then it is activated; with the queue empty a new obstacle of a type drawn with up to
     * RetryBudget retries is instantiated and not queued.
     */
    method GetObstacleFromPool(x: real, y: real, picks: nat -> nat) returns (obj: GameObject?)
      requires Valid()
      modifies this`obstaclePool, this`lastSpawnedObstacleType, this`nextId, this`Objects,
               this`Movers, this`log, Objects, Movers
      ensures Valid()
      ensures old(activeObstaclePrefabs) == [] ==>
                obj == null && obstaclePool == old(obstaclePool) &&
                lastSpawnedObstacleType == old(lastSpawnedObstacleType) && log == old(log)
      ensures old(activeObstaclePrefabs) != [] && old(obstaclePool) != [] ==>
                var q := old(obstaclePool);
                var k := AntiRepeat.ChooseIndex(Types(q), old(lastSpawnedObstacleType));
                obj == q[k] && obstaclePool == AntiRepeat.Remaining(q, k) &&
                obj.active && obj.x == x && obj.y == y && lastSpawnedObstacleType == obj.variant &&
                log == old(log) + (if obj.kind == Obstacle then [StateReset(obj.id)] else []) + [Activated(obj.id)]
      ensures old(activeObstaclePrefabs) != [] && old(obstaclePool) == [] ==>
                var ps := old(activeObstaclePrefabs);
                var i := AntiRepeat.MissIndex(Names(ps), old(lastSpawnedObstacleType), picks);
                obj != null && fresh(obj) && obj.InstanceOf(ps[i]) && obj.active && obj.x == x && obj.y == y &&
                obstaclePool == [] && lastSpawnedObstacleType == ps[i].name && log == old(log)
      ensures fresh(Objects - old(Objects)) && fresh(Movers - old(Movers))
    {
      if |activeObstaclePrefabs| == 0 {
        return null;
      }
      if |obstaclePool| > 0 {
        obj := ObstacleFromQueue(x, y);
      } else {
        obj := ObstacleFromCatalogue(x, y, picks);
      }
    }

    /** GetObstacleFromPool with obstacles queued. */
    method ObstacleFromQueue(x: real, y: real) returns (obj: GameObject)
      requires Valid() && obstaclePool != []
      modifies this`obstaclePool, this`lastSpawnedObstacleType, this`log, Objects, Movers
      ensures Valid()
      ensures var q := old(obstaclePool);
              var k := AntiRepeat.ChooseIndex(Types(q), old(lastSpawnedObstacleType));
              obj == q[k] && obstaclePool == AntiRepeat.Remaining(q, k) &&
              obj.active && obj.x == x && obj.y == y && lastSpawnedObstacleType == obj.variant &&
              log == old(log) + (if obj.kind == Obstacle then [StateReset(obj.id)] else []) + [Activated(obj.id)]
    {
      ghost var q := obstaclePool;
      ghost var k := AntiRepeat.ChooseIndex(Types(q), lastSpawnedObstacleType);
      obj := DequeueObstacle();
      ghost var rest := obstaclePool;
      assert obj == q[k] && rest == AntiRepeat.Remaining(q, k);
      Place(obj, x, y);
      lastSpawnedObstacleType := obj.variant;
      ResetAndActivate(obj);
    }

    /**
     * An obstacle controller on the object is bound and reset (recorded in the log), and
     * only then is the object activated.
     */
    method ResetAndActivate(obj: GameObject)
      requires Admits(obj)
      modifies obj`active, this`log, obj.mover
      ensures Valid() && obj.active
      ensures log == old(log) + (if obj.kind == Obstacle then [StateReset(obj.id)] else []) + [Activated(obj.id)]
    {
      ghost var resetPart := if obj.kind == Obstacle then [StateReset(obj.id)] else [];
      log := log + resetPart;
      Activate(obj);
    }

    /** GetObstacleFromPool with the obstacle queue empty. */
    method ObstacleFromCatalogue(x: real, y: real, picks: nat -> nat) returns (obj: GameObject)
      requires Valid() && activeObstaclePrefabs != []
      modifies this`lastSpawnedObstacleType, this`nextId, this`Objects, this`Movers
      ensures Valid()
      ensures var ps := activeObstaclePrefabs;
              var i := AntiRepeat.MissIndex(Names(ps), old(lastSpawnedObstacleType), picks);
              fresh(obj) && obj.InstanceOf(ps[i]) && obj.active && obj.x == x && obj.y == y &&
              lastSpawnedObstacleType == ps[i].name
      ensures fresh(Objects - old(Objects)) && fresh(Movers - old(Movers))
    {
      var index := PickObstacleIndex(activeObstaclePrefabs, lastSpawnedObstacleType, picks);
      var prefab := activeObstaclePrefabs[index];
      obj := Instantiate(prefab, x, y);
      lastSpawnedObstacleType := prefab.name;
    }
  

    /** Instantiate(prefab, transform) then SetActive(false): a new inactive, tracked object. */
    method InstantiateInactive(p: Prefab) returns (obj: GameObject)
      requires Valid()
      modifies this`nextId, this`Objects, this`Movers
      ensures fresh(obj) && obj.InstanceOf(p) && Admits(obj)
      ensures obj.mover != null ==> fresh(obj.mover) && obj.mover.host == obj
      ensures fresh(Objects - old(Objects)) && fresh(Movers - old(Movers))
    {
      obj := Instantiate(p, 0.0, 0.0);
      obj.active := false;
    }

    /**
     * InitializeObstaclePool: for a non-empty list, up to max(2, poolSize / n) inactive copies
     * of each prefab in list order, poolSize at most in all, join the obstacle queue.
     */
    method InitializeObstaclePool(prefabs: seq<Prefab>)
      requires Valid()
      modifies this`obstaclePool, this`nextId, this`Objects, this`Movers
      ensures Valid()
      ensures Appended(old(obstaclePool), obstaclePool, SpawnSchedule.ObstacleBatch(prefabs, cfg.poolSize))
      ensures fresh(Objects - old(Objects)) && fresh(Movers - old(Movers))
    {
      if |prefabs| == 0 {
        AppendedNone(obstaclePool);
        return;
      }
      var objectsPerPrefab := SpawnSchedule.PerPrefab(cfg.poolSize, |prefabs|);
      NewObstacleBatch(prefabs, objectsPerPrefab);
    }

    /** The outer loop of InitializeObstaclePool, for `per` copies of each prefab. */
    method NewObstacleBatch(prefabs: seq<Prefab>, per: nat)
      requires Valid()
      modifies this`obstaclePool, this`nextId, this`Objects, this`Movers
      ensures Valid()
      ensures Appended(old(obstaclePool), obstaclePool, SpawnSchedule.Batch(prefabs, per, cfg.poolSize))
      ensures fresh(Objects - old(Objects)) && fresh(Movers - old(Movers))
    {
      var objectsCreated := 0;
      ghost var batch := SpawnSchedule.Batch(prefabs, per, cfg.poolSize);
      ghost var done: seq<Prefab> := [];
      AppendedNone(obstaclePool);
      var k := 0;
      while k < |prefabs|
        invariant 0 <= k <= |prefabs|
        invariant Valid()
        invariant BatchRest(prefabs, k, per, cfg.poolSize - objectsCreated, done, batch)
        invariant Appended(old(obstaclePool), obstaclePool, done)
        invariant fresh(Objects - old(Objects)) && fresh(Movers - old(Movers))
      {
        ghost var before := obstaclePool;
        var created := NewObstacles(prefabs[k], per, objectsCreated);
        ghost var made := SpawnSchedule.Repeat(prefabs[k], created - objectsCreated);
        BatchProgress(old(obstaclePool), before, obstaclePool, prefabs, k, per, cfg.poolSize,
                      objectsCreated, created, done, batch);
        done := done + made;
        objectsCreated := created;
        k := k + 1;
      }
      assert prefabs[k..] == [];
      assert BatchRest(prefabs, k, per, cfg.poolSize - objectsCreated, done, batch);
    }

    /**
     * The inner loop of InitializeObstaclePool: copies of p while fewer than `per` were made
     * for it and fewer than poolSize in all; returns the new total.
     */
    method NewObstacles(p: Prefab, per: nat, objectsCreated: int) returns (created: int)
      requires Valid()
      modifies this`obstaclePool, this`nextId, this`Objects, this`Movers
      ensures Valid()
      ensures created - objectsCreated == SpawnSchedule.Take(per, cfg.poolSize - objectsCreated)
      ensures created >= objectsCreated
      ensures Appended(old(obstaclePool), obstaclePool, SpawnSchedule.Repeat(p, created - objectsCreated))
      ensures fresh(Objects - old(Objects)) && fresh(Movers - old(Movers))
    {
      created := objectsCreated;
      AppendedNone(obstaclePool);
      var j := 0;
      while j < per && created < cfg.poolSize
        invariant 0 <= j <= per
        invariant j == 0 || created <= cfg.poolSize
        invariant created == objectsCreated + j
        invariant Valid()
        invariant Appended(old(obstaclePool), obstaclePool, SpawnSchedule.Repeat(p, j))
        invariant fresh(Objects - old(Objects)) && fresh(Movers - old(Movers))
      {
        ghost var before := obstaclePool;
        var obj := NewObstacle(p);
        AppendedRepeat(old(obstaclePool), before, j, obj, p);
        created := created + 1;
        j := j + 1;
      }
    }

    /** One pre-created obstacle: a new inactive instance of p at the tail of the obstacle queue. */
    method NewObstacle(p: Prefab) returns (obj: GameObject)
      requires Valid()
      modifies this`obstaclePool, this`nextId, this`Objects, this`Movers
      ensures Valid()
      ensures obstaclePool == old(obstaclePool) + [obj] && fresh(obj) && obj.InstanceOf(p)
      ensures fresh(Objects - old(Objects)) && fresh(Movers - old(Movers))
    {
      obj := InstantiateInactive(p);
      SeparateEnqueue(pool, obstaclePool, gasTankPool, obj);
      obstaclePool := obstaclePool + [obj];
    }

    /** Start's food loop: poolSize inactive objects of random prefabs, bound to this pool. */
    method FillFoodPool(draws: nat -> Draw) returns (completed: bool)
      requires Valid()
      modifies this`pool, this`nextId, this`Objects, this`Movers
      ensures Valid()
      ensures completed <==> cfg.poolSize <= 0 || cfg.commonPrefabs != [] || cfg.rarePrefabs != []
      ensures !completed ==> unchanged(this)
      ensures completed ==> Appended(old(pool), pool, FoodBatch(cfg, draws, Count(cfg.poolSize)))
      ensures forall i :: |old(pool)| <= i < |pool| ==>
                fresh(pool[i]) && (pool[i].mover != null ==> pool[i].mover.pool == this)
    {
      AppendedNone(pool);
      var i := 0;
      while i < cfg.poolSize
        invariant 0 <= i <= Count(cfg.poolSize)
        invariant Valid()
        invariant i > 0 ==> cfg.commonPrefabs != [] || cfg.rarePrefabs != []
        invariant i == 0 ==> unchanged(this)
        invariant Appended(old(pool), pool, FoodBatch(cfg, draws, i))
        invariant forall n :: |old(pool)| <= n < |pool| ==>
                    fresh(pool[n]) && (pool[n].mover != null ==> pool[n].mover.pool == this)
      {
        var prefabToUse := GetRandomPrefab(cfg.commonPrefabs, cfg.rarePrefabs, draws(i));
        if prefabToUse.None? {
          // Instantiate(null) throws: the rest of Start does not run
          return false;
        }
        ghost var before := pool;
        var obj := NewFood(prefabToUse.value);
        assert FoodBatch(cfg, draws, i) + [prefabToUse.value] == FoodBatch(cfg, draws, i + 1);
        AppendedOne(old(pool), before, FoodBatch(cfg, draws, i), obj, prefabToUse.value);
        i := i + 1;
      }
      assert i == Count(cfg.poolSize);
      return true;
    }

    /** One pre-created food object: a new inactive instance of p, bound to this pool, at the tail of the food queue. */
    method NewFood(p: Prefab) returns (obj: GameObject)
      requires Valid()
      modifies this`pool, this`nextId, this`Objects, this`Movers
      ensures Valid()
      ensures pool == old(pool) + [obj] && fresh(obj) && obj.InstanceOf(p)
      ensures obj.mover != null ==> obj.mover.pool == this
    {
      obj := InstantiateInactive(p);
      if obj.mover != null {
        obj.mover.Initialize(this);
      }
      SeparateEnqueue(pool, obstaclePool, gasTankPool, obj);
      pool := pool + [obj];
    }

    /** Start's gas tank loop: five inactive gas tanks when a gas tank prefab is set. */
    method FillGasTankPool()
      requires Valid()
      modifies this`gasTankPool, this`nextId, this`Objects, this`Movers
      ensures Valid()
      ensures Appended(old(gasTankPool), gasTankPool, GasBatch(cfg))
    {
      AppendedNone(gasTankPool);
      if cfg.gasTankPrefab.Some? {
        var p := cfg.gasTankPrefab.value;
        var i := 0;
        while i < GasTankPoolSize
          invariant 0 <= i <= GasTankPoolSize
          invariant Valid()
          invariant Appended(old(gasTankPool), gasTankPool, SpawnSchedule.Repeat(p, i))
        {
          var obj := InstantiateInactive(p);
          SeparateEnqueue(pool, obstaclePool, gasTankPool, obj);
          AppendedOne(old(gasTankPool), gasTankPool, SpawnSchedule.Repeat(p, i), obj, p);
          assert SpawnSchedule.Repeat(p, i) + [p] == SpawnSchedule.Repeat(p, i + 1);
          gasTankPool := gasTankPool + [obj];
          i := i + 1;
        }
      }
    }

    /**
     * Start: fill the food queue, make the early tier active and pre-create its obstacles,
     * pre-create the gas tanks, then set the obstacle pace and remember the food interval.
     * A missing food prefab aborts Start before anything changes.
     */
    method Start(draws: nat -> Draw) returns (completed: bool)
      requires Valid()
      modifies this`pool, this`obstaclePool, this`gasTankPool, this`activeObstaclePrefabs,
               this`currentObstacleSpawnInterval, this`nextSpawnRateIncrease,
               this`originalSpawnInterval, this`nextId, this`Objects, this`Movers
      ensures Valid()
      ensures completed <==> cfg.poolSize <= 0 || cfg.commonPrefabs != [] || cfg.rarePrefabs != []
      ensures !completed ==> unchanged(this)
      ensures completed ==>
                Appended(old(pool), pool, FoodBatch(cfg, draws, Count(cfg.poolSize))) &&
                activeObstaclePrefabs == old(activeObstaclePrefabs) + cfg.earlyObstaclePrefabs &&
                Appended(old(obstaclePool), obstaclePool,
                         SpawnSchedule.ObstacleBatch(activeObstaclePrefabs, cfg.poolSize)) &&
                Appended(old(gasTankPool), gasTankPool, GasBatch(cfg)) &&
                Timeline().pace == SpawnSchedule.StartPace(Schedule(cfg)) &&
                originalSpawnInterval == spawnInterval
      ensures completed ==>
                forall i :: |old(pool)| <= i < |pool| ==>
                  fresh(pool[i]) && (pool[i].mover != null ==> pool[i].mover.pool == this)
      ensures completed && old(gameTime) == 0.0 && old(activeObstaclePrefabs) == [] &&
              !old(midGameUnlocked) && !old(lateGameUnlocked) ==>
                Timeline() == SpawnSchedule.StartTimeline(cfg.earlyObstaclePrefabs, Schedule(cfg))
    {
      completed := FillFoodPool(draws);
      if !completed {
        return;
      }
      ghost var foodQueue := pool;
      StartSpawners();
      assert pool == foodQueue;
    }

    /** The part of Start after the food queue is filled. */
    method StartSpawners()
      requires Valid()
      modifies this`obstaclePool, this`gasTankPool, this`activeObstaclePrefabs,
               this`currentObstacleSpawnInterval, this`nextSpawnRateIncrease,
               this`originalSpawnInterval, this`nextId, this`Objects, this`Movers
      ensures Valid()
      ensures activeObstaclePrefabs == old(activeObstaclePrefabs) + cfg.earlyObstaclePrefabs
      ensures Appended(old(obstaclePool), obstaclePool,
                       SpawnSchedule.ObstacleBatch(activeObstaclePrefabs, cfg.poolSize))
      ensures Appended(old(gasTankPool), gasTankPool, GasBatch(cfg))
      ensures currentObstacleSpawnInterval == cfg.obstacleSpawnInterval
      ensures nextSpawnRateIncrease == cfg.spawnRateIncreaseInterval
      ensures originalSpawnInterval == spawnInterval
    {
      StartObstacles();
      FillGasTankPool();
      currentObstacleSpawnInterval := cfg.obstacleSpawnInterval;
      nextSpawnRateIncrease := cfg.spawnRateIncreaseInterval;
      originalSpawnInterval := spawnInterval;
    }

    /** Start's obstacle part: the early tier becomes active and its obstacles are pre-created. */
    method StartObstacles()
      requires Valid()
      modifies this`obstaclePool, this`activeObstaclePrefabs, this`nextId, this`Objects, this`Movers
      ensures Valid()
      ensures activeObstaclePrefabs == old(activeObstaclePrefabs) + cfg.earlyObstaclePrefabs
      ensures Appended(old(obstaclePool), obstaclePool,
                       SpawnSchedule.ObstacleBatch(activeObstaclePrefabs, cfg.poolSize))
    {
      activeObstaclePrefabs := activeObstaclePrefabs + cfg.earlyObstaclePrefabs;
      InitializeObstaclePool(activeObstaclePrefabs);
    }

    /** One tier's unlock step of Update: on unlocking, its prefabs become active and are pre-created. */
    method UnlockMid()
      requires Valid()
      modifies this`midGameUnlocked, this`activeObstaclePrefabs, this`obstaclePool, this`nextId,
               this`Objects, this`Movers
      ensures Valid()
      ensures var unlocks := SpawnSchedule.TierUnlocks(old(midGameUnlocked), gameTime,
                               SpawnSchedule.MidUnlockTime, |cfg.midGameObstaclePrefabs|);
              var t := old(Timeline()).tiers;
              Timeline().tiers ==
                (if unlocks then SpawnSchedule.Tiers(t.active + cfg.midGameObstaclePrefabs, true, t.lateUnlocked) else t) &&
              Appended(old(obstaclePool), obstaclePool,
                       if unlocks then SpawnSchedule.ObstacleBatch(cfg.midGameObstaclePrefabs, cfg.poolSize) else [])
      ensures fresh(Objects - old(Objects)) && fresh(Movers - old(Movers))
    {
      if !midGameUnlocked && gameTime >= SpawnSchedule.MidUnlockTime && |cfg.midGameObstaclePrefabs| > 0 {
        midGameUnlocked := true;
        activeObstaclePrefabs := activeObstaclePrefabs + cfg.midGameObstaclePrefabs;
        InitializeObstaclePool(cfg.midGameObstaclePrefabs);
      } else {
        AppendedNone(obstaclePool);
      }
    }

    /** The late tier's unlock step, as UnlockMid. */
    method UnlockLate()
      requires Valid()
      modifies this`lateGameUnlocked, this`activeObstaclePrefabs, this`obstaclePool, this`nextId,
               this`Objects, this`Movers
      ensures Valid()
      ensures var unlocks := SpawnSchedule.TierUnlocks(old(lateGameUnlocked), gameTime,
                               SpawnSchedule.LateUnlockTime, |cfg.lateGameObstaclePrefabs|);
              var t := old(Timeline()).tiers;
              Timeline().tiers ==
                (if unlocks then SpawnSchedule.Tiers(t.active + cfg.lateGameObstaclePrefabs, t.midUnlocked, true) else t) &&
              Appended(old(obstaclePool), obstaclePool,
                       if unlocks then SpawnSchedule.ObstacleBatch(cfg.lateGameObstaclePrefabs, cfg.poolSize) else [])
      ensures fresh(Objects - old(Objects)) && fresh(Movers - old(Movers))
    {
      if !lateGameUnlocked && gameTime >= SpawnSchedule.LateUnlockTime && |cfg.lateGameObstaclePrefabs| > 0 {
        lateGameUnlocked := true;
        activeObstaclePrefabs := activeObstaclePrefabs + cfg.lateGameObstaclePrefabs;
        InitializeObstaclePool(cfg.lateGameObstaclePrefabs);
      } else {
        AppendedNone(obstaclePool);
      }
    }

    /**
     * The clock part of Update: advance the game time, unlock the mid and then the late tier
     * (pre-creating their obstacles), then let a due checkpoint shorten the obstacle interval.
     */
    method AdvanceClock(dt: real)
      requires Valid()
      modifies this`gameTime, this`midGameUnlocked, this`lateGameUnlocked, this`activeObstaclePrefabs,
               this`obstaclePool, this`nextId, this`Objects, this`Movers,
               this`currentObstacleSpawnInterval, this`nextSpawnRateIncrease
      ensures Valid()
      ensures Timeline() == SpawnSchedule.Advance(old(Timeline()), dt, cfg.midGameObstaclePrefabs,
                                                  cfg.lateGameObstaclePrefabs, Schedule(cfg))
      ensures Appended(old(obstaclePool), obstaclePool, UnlockBatch(cfg, old(Timeline()).tiers, old(gameTime) + dt))
      ensures fresh(Objects - old(Objects)) && fresh(Movers - old(Movers))
    {
      gameTime := gameTime + dt;
      UnlockStep();
      CheckpointStep();
    }

    /** The unlock step of Update: the mid tier, then the late tier. */
    method UnlockStep()
      requires Valid()
      modifies this`midGameUnlocked, this`lateGameUnlocked, this`activeObstaclePrefabs,
               this`obstaclePool, this`nextId, this`Objects, this`Movers
      ensures Valid()
      ensures Timeline().tiers == SpawnSchedule.UnlockTiers(old(Timeline()).tiers, gameTime,
                                                            cfg.midGameObstaclePrefabs, cfg.lateGameObstaclePrefabs)
      ensures Appended(old(obstaclePool), obstaclePool, UnlockBatch(cfg, old(Timeline()).tiers, gameTime))
      ensures fresh(Objects - old(Objects)) && fresh(Movers - old(Movers))
    {
      ghost var t := old(Timeline()).tiers;
      ghost var q0 := obstaclePool;
      UnlockMid();
      ghost var q1 := obstaclePool;
      UnlockLate();
      AppendedChain(q0, q1, obstaclePool,
        if SpawnSchedule.TierUnlocks(t.midUnlocked, gameTime, SpawnSchedule.MidUnlockTime, |cfg.midGameObstaclePrefabs|)
        then SpawnSchedule.ObstacleBatch(cfg.midGameObstaclePrefabs, cfg.poolSize) else [],
        if SpawnSchedule.TierUnlocks(t.lateUnlocked, gameTime, SpawnSchedule.LateUnlockTime, |cfg.lateGameObstaclePrefabs|)
        then SpawnSchedule.ObstacleBatch(cfg.lateGameObstaclePrefabs, cfg.poolSize) else []);
    }

    /** The checkpoint step of Update: a due checkpoint shortens the obstacle interval. */
    method CheckpointStep()
      modifies this`currentObstacleSpawnInterval, this`nextSpawnRateIncrease
      ensures Timeline().pace == SpawnSchedule.Checkpoint(old(Timeline()).pace, gameTime, Schedule(cfg))
    {
      if gameTime >= nextSpawnRateIncrease && currentObstacleSpawnInterval > cfg.minimumSpawnInterval {
        currentObstacleSpawnInterval :=
          SpawnSchedule.Max(cfg.minimumSpawnInterval, currentObstacleSpawnInterval - cfg.spawnIntervalDecreaseAmount);
        nextSpawnRateIncrease := gameTime + cfg.spawnRateIncreaseInterval;
      }
    }

    /**
     * The food part of Update: the food timer runs; when it fires it restarts and an object
     * is taken at x = 11 and the drawn height. With the food queue empty and no prefab to
     * instantiate the spawn faults, which ends the frame.
     */
    method SpawnFood(dt: real, dice: Dice) returns (food: GameObject?, faulted: bool)
      requires Valid()
      modifies this`timer, this`pool, this`nextId, this`Objects, this`Movers, this`log, Objects, Movers
      ensures Valid()
      ensures var step := SpawnSchedule.AdvanceTimer(old(timer), dt, spawnInterval);
              timer == step.timer &&
              (faulted <==> FoodFaults(cfg, step.fired, old(pool) == [])) &&
              (!step.fired ==> food == null && pool == old(pool) && log == old(log)) &&
              (step.fired && old(pool) != [] ==>
                 food == old(pool)[0] && pool == old(pool)[1..] && food.active &&
                 food.x == SpawnX && food.y == dice.foodY &&
                 log == old(log) + FoodHandoutLog(food.id, old(food.mover) != null)) &&
              (step.fired && old(pool) == [] ==>
                 pool == [] && log == old(log) && (food == null <==> faulted) &&
                 (food != null ==> fresh(food) && food.active && food.x == SpawnX && food.y == dice.foodY))
      ensures fresh(Objects - old(Objects)) && fresh(Movers - old(Movers))
      ensures Timeline() == old(Timeline())
      ensures (spawnInterval, originalSpawnInterval, turboBoostActive) ==
              old((spawnInterval, originalSpawnInterval, turboBoostActive))
    {
      timer := timer + dt;
      food, faulted := null, false;
      if timer >= spawnInterval {
        timer := 0.0;
        // The pool is none of its own objects, so the call leaves its other fields alone.
        assert forall o: object :: o in Objects || o in Movers ==> o != this;
        food := GetFromPool(SpawnX, dice.foodY, dice.foodDraw);
        faulted := food == null;
      }
    }

    /**
     * The obstacle part of Update: only while some obstacle type is active, the obstacle
     * timer runs against the current interval; when it fires it restarts and an obstacle is
     * taken at x = 11 in the drawn lane.
     */
    method SpawnObstacle(dt: real, dice: Dice) returns (obstacle: GameObject?)
      requires Valid()
      modifies this`obstacleTimer, this`obstaclePool, this`lastSpawnedObstacleType, this`nextId,
               this`Objects, this`Movers, this`log, Objects, Movers
      ensures Valid()
      ensures activeObstaclePrefabs == [] ==>
                obstacle == null && obstacleTimer == old(obstacleTimer) && obstaclePool == old(obstaclePool) &&
                lastSpawnedObstacleType == old(lastSpawnedObstacleType) && log == old(log)
      ensures activeObstaclePrefabs != [] ==>
                var step := SpawnSchedule.AdvanceTimer(old(obstacleTimer), dt, currentObstacleSpawnInterval);
                obstacleTimer == step.timer &&
                (!step.fired ==> obstacle == null && obstaclePool == old(obstaclePool) &&
                                 lastSpawnedObstacleType == old(lastSpawnedObstacleType) && log == old(log)) &&
                (step.fired ==> obstacle != null && obstacle.active && obstacle.x == SpawnX &&
                                obstacle.y == LaneY(cfg, dice.highLane, dice.laneJitter) &&
                                lastSpawnedObstacleType == obstacle.variant) &&
                (step.fired && old(obstaclePool) != [] ==>
                   var q := old(obstaclePool);
                   var k := AntiRepeat.ChooseIndex(Types(q), old(lastSpawnedObstacleType));
                   obstacle == q[k] && obstaclePool == AntiRepeat.Remaining(q, k) &&
                   log == old(log) + QueueHandoutLog(obstacle, Obstacle)) &&
                (step.fired && old(obstaclePool) == [] ==>
                   var ps := activeObstaclePrefabs;
                   obstacle.InstanceOf(ps[AntiRepeat.MissIndex(Names(ps), old(lastSpawnedObstacleType), dice.obstaclePicks)]) &&
                   obstaclePool == [] && log == old(log))
      ensures fresh(Objects - old(Objects)) && fresh(Movers - old(Movers))
      ensures Timeline() == old(Timeline())
      ensures (spawnInterval, originalSpawnInterval, turboBoostActive) ==
              old((spawnInterval, originalSpawnInterval, turboBoostActive))
    {
      obstacle := null;
      if |activeObstaclePrefabs| > 0 {
        obstacleTimer := obstacleTimer + dt;
        if obstacleTimer >= currentObstacleSpawnInterval {
          obstacleTimer := 0.0;
          var y := LaneY(cfg, dice.highLane, dice.laneJitter);
          // The pool is none of its own objects, so the call leaves its other fields alone.
          assert forall o: object :: o in Objects || o in Movers ==> o != this;
          obstacle := GetObstacleFromPool(SpawnX, y, dice.obstaclePicks);
        }
      }
    }

    /**
     * The gas tank part of Update: only with a gas tank prefab set, the gas tank timer runs;
     * when it fires it restarts and a gas tank is taken at x = 11 and the drawn height.
     */
    method SpawnGasTank(dt: real, dice: Dice) returns (gasTank: GameObject?)
      requires Valid()
      modifies this`gasTankTimer, this`gasTankPool, this`nextId, this`Objects, this`Movers, this`log,
               Objects, Movers
      ensures Valid()
      ensures cfg.gasTankPrefab.None? ==>
                gasTank == null && gasTankTimer == old(gasTankTimer) && gasTankPool == old(gasTankPool) &&
                log == old(log)
      ensures cfg.gasTankPrefab.Some? ==>
                var step := SpawnSchedule.AdvanceTimer(old(gasTankTimer), dt, cfg.gasTankSpawnInterval);
                gasTankTimer == step.timer &&
                (!step.fired ==> gasTank == null && gasTankPool == old(gasTankPool) && log == old(log)) &&
                (step.fired ==> gasTank != null && gasTank.active && gasTank.x == SpawnX && gasTank.y == dice.gasY) &&
                (step.fired && old(gasTankPool) != [] ==>
                   gasTank == old(gasTankPool)[0] && gasTankPool == old(gasTankPool)[1..] &&
                   log == old(log) + QueueHandoutLog(gasTank, GasTank)) &&
                (step.fired && old(gasTankPool) == [] ==>
                   gasTank.InstanceOf(cfg.gasTankPrefab.value) && gasTankPool == [] && log == old(log))
      ensures Timeline() == old(Timeline())
      ensures (spawnInterval, originalSpawnInterval, turboBoostActive) ==
              old((spawnInterval, originalSpawnInterval, turboBoostActive))
    {
      gasTank := null;
      if cfg.gasTankPrefab.Some? {
        gasTankTimer := gasTankTimer + dt;
        if gasTankTimer >= cfg.gasTankSpawnInterval {
          gasTankTimer := 0.0;
          // The pool is none of its own objects, so the call leaves its other fields alone.
          assert forall o: object :: o in Objects || o in Movers ==> o != this;
          gasTank := GetGasTankFromPool(SpawnX, dice.gasY);
        }
      }
    }

    /**
     * Update: the clock step, then the food, obstacle and gas tank spawners in that order.
     * A food spawn that faults ends the frame, so the obstacle and gas tank timers and queues
     * keep their values. The obstacle spawner sees the tiers, interval and queue the clock
     * step left; unlocked is that queue (the old one with the unlocked tiers' obstacles
     * appended), and start is everything the spawners started from. SpawnOutcome then says
     * which object each spawner handed out, what each queue and the last obstacle type are
     * afterwards, and which lifecycle entries the frame added.
     */
    method Update(dt: real, dice: Dice)
      returns (food: GameObject?, obstacle: GameObject?, gasTank: GameObject?,
               ghost unlocked: seq<GameObject>, ghost start: SpawnerInputs)
      requires Valid()
      modifies this, Objects, Movers
      ensures Valid()
      ensures Timeline() == SpawnSchedule.Advance(old(Timeline()), dt, cfg.midGameObstaclePrefabs,
                                                  cfg.lateGameObstaclePrefabs, Schedule(cfg))
      ensures spawnInterval == old(spawnInterval) && originalSpawnInterval == old(originalSpawnInterval)
      ensures turboBoostActive == old(turboBoostActive)
      ensures Appended(old(obstaclePool), unlocked, UnlockBatch(cfg, old(Timeline()).tiers, old(gameTime) + dt))
      ensures start == SpawnerInputs(old(timer), old(obstacleTimer), old(gasTankTimer),
                                     QueueState(old(pool), unlocked, old(gasTankPool)),
                                     old(lastSpawnedObstacleType), old(log),
                                     old(pool) != [] && old(pool[0].mover) != null)
      ensures SpawnOutcome(dt, dice, start, food, obstacle, gasTank)
    {
      AdvanceClock(dt);
      unlocked := obstaclePool;
      food, obstacle, gasTank, start := Spawners(dt, dice);
    }

    /** The obstacle spawner runs (no food fault), has an active type and its timer fires. */
    ghost predicate ObstacleFires(dt: real, obstacleTimer0: real, runs: bool)
      reads this`activeObstaclePrefabs, this`currentObstacleSpawnInterval
    {
      runs && activeObstaclePrefabs != [] &&
      SpawnSchedule.AdvanceTimer(obstacleTimer0, dt, currentObstacleSpawnInterval).fired
    }

    /** The gas tank spawner runs (no food fault), has a prefab and its timer fires. */
    predicate GasFires(dt: real, gasTankTimer0: real, runs: bool) {
      runs && cfg.gasTankPrefab.Some? && SpawnSchedule.AdvanceTimer(gasTankTimer0, dt, cfg.gasTankSpawnInterval).fired
    }

    /**
     * What the obstacle spawner did, given whether it ran, its timer, queue and last type
     * before it: without firing it leaves queue and last type alone; firing, it hands out the
     * anti-repeat choice of the queue, or a new obstacle of the MissIndex type when the queue
     * is empty, and records its type.
     */
    ghost predicate ObstacleSpawned(dt: real, dice: Dice, obstacleTimer0: real, runs: bool,
                                    q0: seq<GameObject>, last0: string, obstacle: GameObject?)
      reads this`activeObstaclePrefabs, this`currentObstacleSpawnInterval, this`obstacleTimer,
            this`obstaclePool, this`lastSpawnedObstacleType
    {
      var fires := ObstacleFires(dt, obstacleTimer0, runs);
      obstacleTimer == (if !runs || activeObstaclePrefabs == [] then obstacleTimer0
                        else SpawnSchedule.AdvanceTimer(obstacleTimer0, dt, currentObstacleSpawnInterval).timer) &&
      (obstacle != null <==> fires) &&
      (!fires ==> obstaclePool == q0 && lastSpawnedObstacleType == last0) &&
      (fires ==> lastSpawnedObstacleType == obstacle.variant) &&
      (fires && q0 != [] ==>
         var k := AntiRepeat.ChooseIndex(Types(q0), last0);
         obstacle == q0[k] && obstaclePool == AntiRepeat.Remaining(q0, k)) &&
      (fires && q0 == [] ==>
         var ps := activeObstaclePrefabs;
         obstacle.InstanceOf(ps[AntiRepeat.MissIndex(Names(ps), last0, dice.obstaclePicks)]) && obstaclePool == [])
    }

    /**
     * What the gas tank spawner did: without firing it leaves its queue alone; firing, it
     * hands out the head of the queue, or a new gas tank when the queue is empty, at x = 11.
     */
    ghost predicate GasSpawned(dt: real, dice: Dice, gasTankTimer0: real, runs: bool, q0: seq<GameObject>,
                               gasTank: GameObject?)
      reads this`gasTankTimer, this`gasTankPool, gasTank
    {
      var fires := GasFires(dt, gasTankTimer0, runs);
      gasTankTimer == (if !runs || cfg.gasTankPrefab.None? then gasTankTimer0
                       else SpawnSchedule.AdvanceTimer(gasTankTimer0, dt, cfg.gasTankSpawnInterval).timer) &&
      (gasTank != null <==> fires) &&
      (!fires ==> gasTankPool == q0) &&
      (fires ==> gasTank.active && gasTank.x == SpawnX && gasTank.y == dice.gasY) &&
      (fires && q0 != [] ==> gasTank == q0[0] && gasTankPool == q0[1..]) &&
      (fires && q0 == [] ==> gasTank.InstanceOf(cfg.gasTankPrefab.value) && gasTankPool == [])
    }

    /**
     * What the three spawners of one Update did, given the timers, queues, last obstacle type
     * and log before them, and whether the food queue's head carries a mover; the obstacle
     * timer runs against the interval the clock step left. A food fault stops the other two
     * spawners. Only objects taken from a queue add to the log, in spawner order.
     */
    ghost predicate SpawnOutcome(dt: real, dice: Dice, s: SpawnerInputs,
                                 food: GameObject?, obstacle: GameObject?, gasTank: GameObject?)
      reads this, gasTank
    {
      var q0 := s.queues;
      var foodStep := SpawnSchedule.AdvanceTimer(s.timer, dt, spawnInterval);
      var runs := !FoodFaults(cfg, foodStep.fired, q0.food == []);
      timer == foodStep.timer &&
      (!foodStep.fired ==> food == null && pool == q0.food) &&
      (foodStep.fired && q0.food != [] ==> food == q0.food[0] && pool == q0.food[1..]) &&
      (foodStep.fired && q0.food == [] ==> pool == [] && (food == null <==> !runs)) &&
      ObstacleSpawned(dt, dice, s.obstacleTimer, runs, q0.obstacles, s.last, obstacle) &&
      GasSpawned(dt, dice, s.gasTankTimer, runs, q0.gasTanks, gasTank) &&
      log == s.log + (if foodStep.fired && q0.food != [] then FoodHandoutLog(food.id, s.foodMover) else [])
                   + (if ObstacleFires(dt, s.obstacleTimer, runs) && q0.obstacles != []
                      then QueueHandoutLog(obstacle, Obstacle) else [])
                   + (if GasFires(dt, s.gasTankTimer, runs) && q0.gasTanks != []
                      then QueueHandoutLog(gasTank, GasTank) else [])
    }

    /**
     * The three spawners of Update; a food fault skips the other two. start is what they
     * started from.
     */
    method Spawners(dt: real, dice: Dice)
      returns (food: GameObject?, obstacle: GameObject?, gasTank: GameObject?, ghost start: SpawnerInputs)
      requires Valid()
      modifies this`timer, this`pool, this`obstacleTimer, this`obstaclePool, this`lastSpawnedObstacleType,
               this`gasTankTimer, this`gasTankPool, this`nextId, this`Objects, this`Movers, this`log,
               Objects, Movers
      ensures Valid()
      ensures start == SpawnerInputs(old(timer), old(obstacleTimer), old(gasTankTimer),
                                     QueueState(old(pool), old(obstaclePool), old(gasTankPool)),
                                     old(lastSpawnedObstacleType), old(log),
                                     old(pool) != [] && old(pool[0].mover) != null)
      ensures SpawnOutcome(dt, dice, start, food, obstacle, gasTank)
      ensures Timeline() == old(Timeline())
      ensures (spawnInterval, originalSpawnInterval, turboBoostActive) ==
              old((spawnInterval, originalSpawnInterval, turboBoostActive))
    {
      start := SpawnerInputs(timer, obstacleTimer, gasTankTimer, QueueState(pool, obstaclePool, gasTankPool),
                             lastSpawnedObstacleType, log, pool != [] && pool[0].mover != null);
      ghost var foodStep := SpawnSchedule.AdvanceTimer(timer, dt, spawnInterval);
      ghost var foodLog := if foodStep.fired && pool != [] then FoodHandoutLog(pool[0].id, start.foodMover) else [];
      var faulted;
      food, faulted := SpawnFood(dt, dice);
      assert log == start.log + foodLog;
      if faulted {
        obstacle, gasTank := null, null;
        return;
      }
      ghost var afterFood := pool;
      obstacle, gasTank := SpawnObstacleAndGasTank(dt, dice);
      assert pool == afterFood;
    }

    /** The obstacle spawner, then the gas tank spawner. */
    method SpawnObstacleAndGasTank(dt: real, dice: Dice) returns (obstacle: GameObject?, gasTank: GameObject?)
      requires Valid()
      modifies this`obstacleTimer, this`obstaclePool, this`lastSpawnedObstacleType,
               this`gasTankTimer, this`gasTankPool, this`nextId, this`Objects, this`Movers, this`log,
               Objects, Movers
      ensures Valid()
      ensures ObstacleSpawned(dt, dice, old(obstacleTimer), true, old(obstaclePool), old(lastSpawnedObstacleType), obstacle)
      ensures GasSpawned(dt, dice, old(gasTankTimer), true, old(gasTankPool), gasTank)
      ensures log == old(log) + (if ObstacleFires(dt, old(obstacleTimer), true) && old(obstaclePool) != []
                                 then QueueHandoutLog(obstacle, Obstacle) else [])
                              + (if GasFires(dt, old(gasTankTimer), true) && old(gasTankPool) != []
                                 then QueueHandoutLog(gasTank, GasTank) else [])
      ensures Timeline() == old(Timeline())
      ensures (spawnInterval, originalSpawnInterval, turboBoostActive) ==
              old((spawnInterval, originalSpawnInterval, turboBoostActive))
    {
      obstacle := SpawnObstacle(dt, dice);
      gasTank := SpawnGasTank(dt, dice);
    }
  }
}
