# 50West2D: spawn, recycle and boost core in Dafny

50West2D is a side-scrolling Unity game. The player's bus dodges obstacles, collects food for
points and collects gas tanks that fill a fuel gauge. A full gauge unlocks a timed turbo boost.
This project models the game logic behind that loop and proves properties of it:

- **Object pool and spawner** (`ObjectPool`). The pool keeps three FIFO queues of inactive
  objects: food, obstacles and gas tanks. Each frame it advances the game clock and unlocks
  the mid-game and late-game obstacle tiers. At checkpoints it shortens the obstacle interval.
  It runs three spawn timers and hands objects out at x = 11.
  - Obstacles are chosen by a bounded-retry anti-repeat rule.
  - Objects leaving play are routed back to the queue of their kind.
- **Pooled mover** (`PooledObjectMover`). It scrolls a food object left at a latched speed,
  doubled during a boost. When the object is collected or off screen, the mover returns it to
  the pool exactly once.
- **Bus** (`BusController`). It covers:
  - speed upgrades, capped at the maximum speed and at 5 tanks;
  - the damage and invulnerability window;
  - turbo on and off, which caches the pre-boost speed and restores it;
  - the clamp of the bus's position to the play field.
- **Fuel gauge** (`FuelBarManager`). It is a counter from 0 to maxFuelTanks, with a lock that
  stops accumulation while a boost runs. maxFuelTanks is an inspector integer, so a zero or
  negative value is modelled too: the gauge is then full from the start.
- **Boost coordinator** (`TurboBoostManager`). It is an Idle/Active machine.
  - A press while the gauge is full starts a boost: the gauge is emptied and locked, the bus
    goes into turbo and food spawns twice as often.
  - After boostDuration every effect is reverted.

Each stateful component is a class whose fields are updated in place. Each of its methods is
proved against a pure function of the same step:

| class | module | specification module |
|---|---|---|
| `ObjectPool`, `PooledObjectMover`, `GameObject` | `Pooling` | `AntiRepeat`, `SpawnSchedule`, `MoverMotion` |
| `FuelBarManager` | `Fuel` | `FuelGauge` |
| `BusController` | `Bus` | `BusState` |
| `TurboBoostManager` | `Boost` | `BoostMachine` |

The pure modules carry the lemmas about whole runs: any sequence of frames, pickups or hits.

The pool's invariant is `Valid()`:
- every queued object is tracked and inactive;
- no object is queued twice, neither within one queue nor across two.

A ghost `log` on the pool records activations and state resets in order. This lets the model
state that food is activated before it is reset, while obstacles and gas tanks are reset
before they are activated.

Randomness comes in as parameters. `Draw` is one `GetRandomPrefab` roll and index. `Dice`
holds one frame's random values. Streams `nat -> nat` supply the obstacle index draws. A
random index is taken modulo the list length. Time is a `real` number of seconds. Frame
times are parameters.

## Model

All source paths are under `Assets/Scripts/`.

| member | source | states |
|---|---|---|
| AntiRepeat.FirstDifferent | Assets/Scripts/ObjectPool.cs:292-306 | the retry loop stops at the first examined entry whose type differs from the last spawned type; every entry it passed repeats that type; with no such entry it stops at the last one it may examine |
| AntiRepeat.ChooseIndex | Assets/Scripts/ObjectPool.cs:275-317 | the head is handed out exactly when the retry is not guarded (more than 2 left after the first dequeue and a known last type) or the head differs from the last type; otherwise the chosen entry lies within the retry budget, every entry before it repeats, and it repeats only when it is the last one examined |
| AntiRepeat.ChooseIndexAvoidsRepeat | Assets/Scripts/ObjectPool.cs:285-306 | if any entry within the retry budget has another type, the chosen object is not a repeat, and it is no later than that entry |
| AntiRepeat.ScenarioRetryFindsOther | Assets/Scripts/ObjectPool.cs:280-306 | queue types [A,A,A,B] after last A hand out the B |
| AntiRepeat.ScenarioShortQueueRepeats | Assets/Scripts/ObjectPool.cs:277-280 | queue types [A,A] after last A hand out the head A, because the length guard is checked after the first dequeue |
| AntiRepeat.ChooseFirstOther | Assets/Scripts/ObjectPool.cs:292-301 | when entries 0..a repeat and entry a+1 does not, entry a+1 is chosen |
| AntiRepeat.ChooseLastExamined | Assets/Scripts/ObjectPool.cs:292-306 | when every examined entry repeats, the last one examined is chosen |
| AntiRepeat.Without | Assets/Scripts/ObjectPool.cs:309-315 | the re-enqueued list holds exactly the passed-over entries other than the one taken, in their order |
| AntiRepeat.RemainingRemovesExactlyOne | Assets/Scripts/ObjectPool.cs:275-317 | on a duplicate-free queue the dequeue removes exactly the chosen object: the entries behind the examined ones keep their order, the passed-over ones follow at the tail, the length drops by one and the multiset loses only the chosen object |
| AntiRepeat.RemainingMembers | Assets/Scripts/ObjectPool.cs:275-317 | after the dequeue the queue is duplicate-free and holds every other object of the old queue, and nothing else |
| AntiRepeat.KeptDraw | Assets/Scripts/ObjectPool.cs:362-368 | the do-while keeps the first draw whose type is not the last one, or the fifth draw when all repeat |
| AntiRepeat.MissIndex | Assets/Scripts/ObjectPool.cs:357-373 | with one type or no known last type a single draw decides; otherwise the chosen type is one of the first 5 draws |
| AntiRepeat.MissIndexAvoidsRepeat | Assets/Scripts/ObjectPool.cs:359-369 | if any of the 5 draws names another type, the obstacle created on a queue miss is not a repeat |
| SpawnSchedule.UnlockTiers | Assets/Scripts/ObjectPool.cs:146-167 | after one unlock step the mid tier is unlocked iff it already was or the time is at least 25 with a non-empty mid list, and likewise the late tier at 50; the active list only grows; once both tiers are unlocked nothing changes |
| SpawnSchedule.UnlockTiersFollowsClock | Assets/Scripts/ObjectPool.cs:146-167 | an unlock step at a later time moves the tiers from what they must be at the earlier time to what they must be at the later one |
| SpawnSchedule.RunUnlocksEachTierOnce | Assets/Scripts/ObjectPool.cs:146-167 | over any run of non-negative frame times, the active list is the early tier followed by each non-empty later tier exactly once, appended once its time has come, and it never shrinks |
| SpawnSchedule.StartTiersMatchClock | Assets/Scripts/ObjectPool.cs:83-86 | from the state Start leaves, the active list is always the tiers due at the current game time |
| SpawnSchedule.DecayStep | Assets/Scripts/ObjectPool.cs:172 | a decrease never raises the interval when the decrease is non-negative, never drops it below the minimum, and leaves an interval at or below the minimum alone |
| SpawnSchedule.Checkpoint | Assets/Scripts/ObjectPool.cs:170-176 | a due checkpoint (time reached and interval above the minimum) sets the interval to max(minimum, interval - decrease) and the next checkpoint one period after the current time; otherwise, and always once the interval is at or below the minimum, nothing changes |
| SpawnSchedule.DecayedClosedForm | Assets/Scripts/ObjectPool.cs:170-174 | after n checkpoints the interval is max(minimum, initial - n * decrease) |
| SpawnSchedule.ScenarioDecayReachesFloor | Assets/Scripts/ObjectPool.cs:27-29 | with the default settings (3, 0.2, 1) the interval is 2 after five checkpoints and 1 after ten or more |
| SpawnSchedule.CheckpointsFired | Assets/Scripts/ObjectPool.cs:170-176 | the number of checkpoints that fire during a run of frames is at most the number of frames |
| SpawnSchedule.DecayedAfterStep | Assets/Scripts/ObjectPool.cs:170-174 | one decrease followed by n more is n + 1 decreases |
| SpawnSchedule.RunPaceIsDecayed | Assets/Scripts/ObjectPool.cs:170-176 | after any run of frames the interval is the starting one decreased once per checkpoint that fired, and by nothing else |
| SpawnSchedule.RunKeepsIntervalBounds | Assets/Scripts/ObjectPool.cs:170-176 | over any run of frames the interval never increases and stays between the minimum and the configured interval; once at or below the minimum it and the next checkpoint stay put |
| SpawnSchedule.Advance | Assets/Scripts/ObjectPool.cs:143 | one clock step advances the game time by exactly the frame time |
| SpawnSchedule.AdvanceTimer | Assets/Scripts/ObjectPool.cs:179-186 | a timer fires iff it reaches its interval, restarts at 0 when it fires and otherwise accumulates the frame time; with a positive interval it stays in [0, interval) |
| SpawnSchedule.FoodInterval | Assets/Scripts/ObjectPool.cs:441-455 | the food interval is half the original during turbo and the original otherwise |
| SpawnSchedule.TruncDiv | Assets/Scripts/ObjectPool.cs:463 | C# integer division truncates toward zero: it is Euclidean division for a non-negative pool size and at most 0 for a negative one |
| SpawnSchedule.PerPrefab | Assets/Scripts/ObjectPool.cs:463 | exactly max(2, poolSize / n) copies of each prefab: poolSize / n when poolSize is at least 2n, and 2 otherwise (also for a negative poolSize) |
| SpawnSchedule.BatchSize | Assets/Scripts/ObjectPool.cs:467-495 | the nested loops create min(poolSize, per * n) objects, and none for a non-positive pool size |
| SpawnSchedule.BatchIsLayoutPrefix | Assets/Scripts/ObjectPool.cs:467-495 | the created prefabs are a prefix of "each prefab per times, in list order" |
| SpawnSchedule.ObstacleBatchShape | Assets/Scripts/ObjectPool.cs:458-499 | a non-empty list of n prefabs gives min(poolSize, max(2, poolSize / n) * n) objects in prefab order |
| MoverMotion.LatchSpeed | Assets/Scripts/PooledObjectMover.cs:37-40 | the original speed is taken from moveSpeed only while it is still 0 |
| MoverMotion.LatchKeepsFirstSpeed | Assets/Scripts/PooledObjectMover.cs:36-40 | once a non-zero speed is latched, no later enable replaces it, whatever moveSpeed reads by then |
| MoverMotion.LatchAllKeepsNonZero | Assets/Scripts/PooledObjectMover.cs:36-40 | a non-zero latched speed survives any number of enables |
| MoverMotion.EffectiveSpeed | Assets/Scripts/PooledObjectMover.cs:51-59 | the frame speed is exactly twice the latched speed during a boost and the latched speed otherwise |
| MoverMotion.Step | Assets/Scripts/PooledObjectMover.cs:62 | with non-negative speed and frame time the object never moves right, and during a boost it moves exactly twice as far |
| FuelGauge.AddFuel | Assets/Scripts/FuelBarManager.cs:25-51 | a pickup changes nothing while locked or full, and otherwise adds exactly one tank; the bound 0..max is kept |
| FuelGauge.RemoveFuel | Assets/Scripts/FuelBarManager.cs:53-66 | a loss removes one tank when there is one, is not gated by the lock, and keeps the bound |
| FuelGauge.Percentage | Assets/Scripts/FuelBarManager.cs:113-116 | the fraction times max is the tank count; it lies in [0, 1], and with a positive max it is 1 exactly when the gauge is full; there is none (NaN) exactly when max is 0 |
| FuelGauge.Reset | Assets/Scripts/FuelBarManager.cs:119-124 | the count becomes 0 and the lock is untouched; the emptied gauge is full exactly when max is at most 0 |
| FuelGauge.SetBoostActive | Assets/Scripts/FuelBarManager.cs:127-131 | only the lock changes |
| FuelGauge.RemoveUndoesAdd | Assets/Scripts/FuelBarManager.cs:25-66 | losing a tank right after banking one restores the gauge |
| FuelGauge.PickupsFillGauge | Assets/Scripts/FuelBarManager.cs:34-46 | unlocked, n pickups give min(current + n, max) tanks (none with a negative max), and the gauge is then full once current + n reaches max |
| FuelGauge.NonPositiveCapacity | Assets/Scripts/FuelBarManager.cs:11-46 | with maxFuelTanks at most 0 the gauge holds no tank, counts as full, and no number of pickups changes it; a negative max gives a fraction of 0 |
| FuelGauge.LockedGaugeIgnoresPickups | Assets/Scripts/FuelBarManager.cs:28-32 | while locked, any number of pickups leaves the gauge as it is |
| Fuel.FuelBarManager.constructor | Assets/Scripts/FuelBarManager.cs:11-17 | the gauge starts empty and unlocked, within its bound |
| Fuel.FuelBarManager.AddFuel | Assets/Scripts/FuelBarManager.cs:25-51 | the new gauge is FuelGauge.AddFuel of the old one, and the bound is kept |
| Fuel.FuelBarManager.RemoveFuel | Assets/Scripts/FuelBarManager.cs:53-66 | the new gauge is FuelGauge.RemoveFuel of the old one, and the bound is kept |
| Fuel.FuelBarManager.IsFuelBarFull | Assets/Scripts/FuelBarManager.cs:107-110 | true iff the tank count has reached the maximum |
| Fuel.FuelBarManager.GetFuelPercentage | Assets/Scripts/FuelBarManager.cs:113-116 | the gauge's fraction as FuelGauge.Percentage states it |
| Fuel.FuelBarManager.ResetFuelBar | Assets/Scripts/FuelBarManager.cs:119-124 | the gauge is emptied, the lock is untouched, and the bound holds afterwards |
| Fuel.FuelBarManager.SetBoostActive | Assets/Scripts/FuelBarManager.cs:127-131 | only the lock changes, and the bound is kept |
| Fuel.FuelBarManager.CanCollectFuel | Assets/Scripts/FuelBarManager.cs:134-137 | true iff the gauge is not locked |
| BusState.Start | Assets/Scripts/Movement.cs:36-43 | the bus starts at its base speed and nothing else changes |
| BusState.IncreaseSpeed | Assets/Scripts/Movement.cs:46-59 | below 5 tanks and below the maximum speed, one more tank and speed min(max, base + increase * tanks); otherwise nothing changes; neither the maximum speed nor 5 tanks is exceeded |
| BusState.TickInvulnerability | Assets/Scripts/Movement.cs:63-71 | while invulnerable the timer drops by the frame time and the flag stays set iff the timer is still positive; otherwise nothing changes |
| BusState.TakeDamage | Assets/Scripts/Movement.cs:111-127 | a hit while invulnerable or in turbo changes nothing; otherwise the bus becomes invulnerable for invulnerabilityTime; right after, a further hit cannot land |
| BusState.ActivateTurbo | Assets/Scripts/Movement.cs:130-143 | turbo and invulnerable are set, the current speed is cached, the speed becomes the turbo speed and the scale ramps to the multiplier |
| BusState.DeactivateTurbo | Assets/Scripts/Movement.cs:146-158 | both flags are cleared, the cached speed is restored exactly and the scale ramps back to 1 |
| BusState.TurboPersists | Assets/Scripts/Movement.cs:111-114 | whatever frames, hits and pickups happen in turbo, the bus stays in turbo, keeps its cached speed and takes no damage |
| BusState.TurboRoundTripRestoresSpeed | Assets/Scripts/Movement.cs:130-158 | turbo on, any events, turbo off: the bus is back at exactly its pre-boost speed and original scale |
| BusState.UpgradesStayBounded | Assets/Scripts/Movement.cs:46-59 | over any number of gas tank pickups the tank count stays at most 5 and the speed at most the maximum |
| BusState.Clamp | Assets/Scripts/Movement.cs:86-87 | the clamped value lies within the bounds, and a value already within them is kept |
| BusState.ClampPosition | Assets/Scripts/Movement.cs:84-88 | the clamped position lies in [-7.46, 7.46] x [-0.73, 1.37], and a position inside is kept |
| BusState.ClampPositionIdempotent | Assets/Scripts/Movement.cs:84-88 | clamping twice is clamping once |
| Bus.BusController.constructor | Assets/Scripts/Movement.cs:7-28 | the field initialisers: speed 4, no tanks, not invulnerable, not in turbo, original scale |
| Bus.BusController.Start | Assets/Scripts/Movement.cs:36-43 | the new parameters are BusState.Start of the old ones |
| Bus.BusController.IncreaseSpeed | Assets/Scripts/Movement.cs:46-59 | the new parameters are BusState.IncreaseSpeed of the old ones |
| Bus.BusController.Update | Assets/Scripts/Movement.cs:61-72 | the new parameters are BusState.TickInvulnerability of the old ones |
| Bus.BusController.FixedUpdate | Assets/Scripts/Movement.cs:74-89 | the velocity is the joystick input times the speed, and the position becomes its clamp |
| Bus.BusController.TakeDamage | Assets/Scripts/Movement.cs:111-127 | the new parameters are BusState.TakeDamage of the old ones, and the damage reaches the health manager exactly when the hit lands and a health manager is set |
| Bus.BusController.ActivateTurboBoost | Assets/Scripts/Movement.cs:130-143 | the new parameters are BusState.ActivateTurbo of the old ones |
| Bus.BusController.DeactivateTurboBoost | Assets/Scripts/Movement.cs:146-158 | the new parameters are BusState.DeactivateTurbo of the old ones |
| BoostMachine.SetTurbo | Assets/Scripts/ObjectPool.cs:441-455 | the switch is set, the original interval is kept, and the food interval is half the original when on and the original when off |
| BoostMachine.SetTurboIdempotent | Assets/Scripts/ObjectPool.cs:441-455 | switching turbo mode the same way twice is switching it once, so halving never compounds |
| BoostMachine.Refresh | Assets/Scripts/TurboBoostManager.cs:41-49 | with a button and a gauge, the button becomes interactable iff the gauge is full and no boost runs; nothing else changes |
| BoostMachine.Activate | Assets/Scripts/TurboBoostManager.cs:62-87 | the boost becomes Active at 0 s, the button is disabled, the gauge is emptied and locked, the bus goes into turbo and the pool into turbo mode; a missing collaborator stays missing |
| BoostMachine.Revert | Assets/Scripts/TurboBoostManager.cs:98-115 | the bus leaves turbo, the pool leaves turbo mode, the gauge is unlocked and the boost becomes Idle; the button is left as it was |
| BoostMachine.PressStartsIffCanStart | Assets/Scripts/TurboBoostManager.cs:51-58 | a press starts a boost iff the gauge is present and full and no boost runs; otherwise nothing changes |
| BoostMachine.PressWhileActiveIgnored | Assets/Scripts/TurboBoostManager.cs:53-62 | boosts never overlap: a press while one runs changes nothing |
| BoostMachine.ButtonAgreesWithPress | Assets/Scripts/TurboBoostManager.cs:44-58 | after a refresh the button is interactable exactly when a press would start a boost |
| BoostMachine.LockedWhileActiveKept | Assets/Scripts/TurboBoostManager.cs:70-75 | "the gauge is locked while a boost runs" is kept by presses, frames and refreshes |
| BoostMachine.MissingCollaboratorSkipped | Assets/Scripts/TurboBoostManager.cs:78-107 | a missing bus or pool skips only its own effects: the machine and the other collaborators move as they would with it present |
| BoostMachine.IdleTicks | Assets/Scripts/TurboBoostManager.cs:115-117 | frames after the boost has ended change nothing |
| BoostMachine.TicksBeforeDuration | Assets/Scripts/TurboBoostManager.cs:92 | before boostDuration has elapsed the counter holds the elapsed time and every boost effect stays in place |
| BoostMachine.TicksReachDuration | Assets/Scripts/TurboBoostManager.cs:92-115 | once the frame times add up to the rest of the duration, whatever they are individually, the state is the revert of the boosted state |
| BoostMachine.FullCycleRestores | Assets/Scripts/TurboBoostManager.cs:60-117 | a press on a full gauge, then frames covering the duration, ends Idle with the gauge empty and unlocked, the bus at its pre-boost speed out of turbo and not invulnerable, the pool at its original food interval, and the button disabled |
| Boost.TurboBoostManager.constructor | Assets/Scripts/TurboBoostManager.cs:29-39 | no boost runs and the button starts disabled |
| Boost.TurboBoostManager.Update | Assets/Scripts/TurboBoostManager.cs:41-49 | the new coordinator and collaborator state is BoostMachine.Refresh of the old |
| Boost.TurboBoostManager.OnTurboButtonPressed | Assets/Scripts/TurboBoostManager.cs:51-58 | the new state is BoostMachine.Press of the old |
| Boost.TurboBoostManager.BeginBoost | Assets/Scripts/TurboBoostManager.cs:62-87 | the new state is BoostMachine.Activate of the old, through the collaborators' own methods |
| Boost.TurboBoostManager.Tick | Assets/Scripts/TurboBoostManager.cs:92-115 | the new state is BoostMachine.Tick of the old: the wait advances, and the boost reverts on the frame it completes |
| Boost.TurboBoostManager.EndBoost | Assets/Scripts/TurboBoostManager.cs:98-115 | the new state is BoostMachine.Revert of the old |
| Boost.TurboBoostManager.IsBoostActive | Assets/Scripts/TurboBoostManager.cs:119-122 | true iff the machine is in its Active phase |
| Pooling.GetRandomPrefab | Assets/Scripts/ObjectPool.cs:222-237 | a roll of at most 0.7 picks a random common prefab, a higher one a random rare prefab; an empty common list sends every roll to the random rare prefab; a roll above 0.7 with an empty rare list falls back to the first common prefab; the result is null exactly when both lists are empty |
| Pooling.LaneY | Assets/Scripts/ObjectPool.cs:196-200 | with the jitter within the variance, the obstacle's height lies within the variance of its lane |
| Pooling.Route | Assets/Scripts/ObjectPool.cs:418-438 | the object joins the tail of the queue of its kind, and the other two queues are unchanged |
| Pooling.RetryFindsOther | Assets/Scripts/ObjectPool.cs:292-301 | on a queue of objects, the retry stops at the first entry after a run of repeats that has another type |
| Pooling.RetryExhausted | Assets/Scripts/ObjectPool.cs:292-315 | a retry loop that runs out of attempts or entries keeps the last entry it examined, which is not put back |
| Pooling.FoodBatch | Assets/Scripts/ObjectPool.cs:69-72 | the i-th pre-created food object is an instance of the i-th GetRandomPrefab result |
| Pooling.GasBatch | Assets/Scripts/ObjectPool.cs:89-101 | five gas tanks of the gas tank prefab, or none without one |
| Pooling.PooledObjectMover.Initialize | Assets/Scripts/PooledObjectMover.cs:21-29 | the mover remembers the pool to return to |
| Pooling.PooledObjectMover.OnEnable | Assets/Scripts/PooledObjectMover.cs:32-44 | the age restarts at 0 and the original speed is latched on first use |
| Pooling.PooledObjectMover.ReturnToPool | Assets/Scripts/PooledObjectMover.cs:91-117 | nothing happens if the host is already inactive; otherwise the host is deactivated and routed to its queue with nothing else in the pool changed, or destroyed when there is no pool; the pool stays valid |
| Pooling.PooledObjectMover.Update | Assets/Scripts/PooledObjectMover.cs:46-71 | the age grows by the frame time, the host moves left at the effective speed, and it is returned exactly when it is at or past offScreenX |
| Pooling.PooledObjectMover.OnTriggerEnter2D | Assets/Scripts/PooledObjectMover.cs:74-88 | touching the player scores pointValue when a score manager exists and returns the object; any other collider changes nothing |
| Pooling.PooledObjectMover.ResetState | Assets/Scripts/PooledObjectMover.cs:121-150 | the renderer and collider the host has are enabled and its rigidbody is at rest; parts the host lacks are untouched |
| Pooling.DoubleReturnQueuesOnce | Assets/Scripts/PooledObjectMover.cs:93-97 | a return requested twice in one frame queues the object exactly once |
| Pooling.PickObstacleIndex | Assets/Scripts/ObjectPool.cs:357-373 | the retrying draw loop computes AntiRepeat.MissIndex |
| Pooling.ObjectPool.constructor | Assets/Scripts/ObjectPool.cs:46-64 | the field initialisers: empty queues, no active obstacle types, all timers and the clock at 0, no tier unlocked, no last type |
| Pooling.ObjectPool.Instantiate | Assets/Scripts/ObjectPool.cs:261 | a new active object of the prefab at the given position; a mover on it has been enabled and has latched its speed |
| Pooling.ObjectPool.Activate | Assets/Scripts/ObjectPool.cs:245 | a queued object becomes active and its mover runs OnEnable; the activation is logged |
| Pooling.ObjectPool.ReturnToPool | Assets/Scripts/ObjectPool.cs:418-438 | with no guard, the object is deactivated and routed to the queue of its kind; the clock, the log and the last type are unchanged; the pool stays valid when the object was active |
| Pooling.ObjectPool.SetTurboBoostMode | Assets/Scripts/ObjectPool.cs:441-455 | the switch is set and the food interval becomes FoodInterval of the original, so it never compounds |
| Pooling.ObjectPool.GetFromPool | Assets/Scripts/ObjectPool.cs:239-265 | with food queued, the head is placed, activated, then bound to this pool and reset, in that order; with the queue empty, a new object of the GetRandomPrefab result is created and bound but not queued; with no prefab at all nothing is created |
| Pooling.ObjectPool.FoodFromQueue | Assets/Scripts/ObjectPool.cs:241-257 | the head of the food queue is handed out placed and active, with the activation logged before the reset |
| Pooling.ObjectPool.BindAndReset | Assets/Scripts/ObjectPool.cs:247-254 | the mover is bound to this pool and its host is reset |
| Pooling.ObjectPool.FoodFromPrefab | Assets/Scripts/ObjectPool.cs:258-264 | on a miss, a new instance of the GetRandomPrefab result, bound to this pool; null when there is no prefab |
| Pooling.ObjectPool.GetGasTankFromPool | Assets/Scripts/ObjectPool.cs:390-416 | with gas tanks queued, the head is placed, reset, then activated; with none queued, a new gas tank is created and not queued; without a gas tank prefab nothing is created |
| Pooling.ObjectPool.TakeObstacle | Assets/Scripts/ObjectPool.cs:275-317 | the object handed out is the one AntiRepeat.ChooseIndex picks, and the queue becomes AntiRepeat.Remaining of the old queue |
| Pooling.ObjectPool.RetryDequeue | Assets/Scripts/ObjectPool.cs:288-306 | the retry loop dequeues exactly up to the chosen entry, and its passed-over list, less the object taken, is the queue prefix before it |
| Pooling.ObjectPool.DequeueObstacle | Assets/Scripts/ObjectPool.cs:277-317 | the anti-repeat dequeue keeps the pool valid and hands out a queued, inactive object |
| Pooling.ObjectPool.PutBack | Assets/Scripts/ObjectPool.cs:308-315 | the passed-over objects other than the one taken join the tail in their order |
| Pooling.ObjectPool.GetObstacleFromPool | Assets/Scripts/ObjectPool.cs:267-387 | with no active type nothing happens; with obstacles queued, the anti-repeat choice is placed, recorded as the last type, reset and then activated; on a miss, a new obstacle of the drawn type is created, recorded and not queued |
| Pooling.ObjectPool.ObstacleFromQueue | Assets/Scripts/ObjectPool.cs:275-352 | the anti-repeat choice is handed out placed and active and becomes the last type; its reset is logged before its activation |
| Pooling.ObjectPool.ResetAndActivate | Assets/Scripts/ObjectPool.cs:324-350 | an obstacle's controllers are reset before the object is activated |
| Pooling.ObjectPool.ObstacleFromCatalogue | Assets/Scripts/ObjectPool.cs:354-386 | on a miss, a new active instance of the type MissIndex draws, which becomes the last type |
| Pooling.ObjectPool.InitializeObstaclePool | Assets/Scripts/ObjectPool.cs:458-499 | the obstacle queue gains exactly SpawnSchedule.ObstacleBatch of the list, one new inactive object per entry; nothing for an empty list |
| Pooling.ObjectPool.NewObstacleBatch | Assets/Scripts/ObjectPool.cs:467-495 | the outer loop appends SpawnSchedule.Batch of the list |
| Pooling.ObjectPool.NewObstacles | Assets/Scripts/ObjectPool.cs:469-494 | the inner loop makes min(per, budget left) copies of one prefab and returns the new total |
| Pooling.ObjectPool.NewObstacle | Assets/Scripts/ObjectPool.cs:471-493 | one new instance of the prefab joins the tail of the obstacle queue |
| Pooling.ObjectPool.FillFoodPool | Assets/Scripts/ObjectPool.cs:69-80 | poolSize new inactive food objects, one per GetRandomPrefab result and bound to this pool, join the food queue; with no prefab the loop aborts before changing anything |
| Pooling.ObjectPool.NewFood | Assets/Scripts/ObjectPool.cs:71-79 | one new instance of the prefab, bound to this pool, joins the tail of the food queue |
| Pooling.ObjectPool.FillGasTankPool | Assets/Scripts/ObjectPool.cs:89-103 | the gas tank queue gains GasBatch |
| Pooling.ObjectPool.Start | Assets/Scripts/ObjectPool.cs:66-138 | Start completes iff there is a food prefab or nothing to create. It then fills the food queue, makes the early tier active and queues its obstacle batch, queues the gas tanks, sets the start pace and remembers the food interval. From fresh state its clock is the start timeline |
| Pooling.ObjectPool.StartSpawners | Assets/Scripts/ObjectPool.cs:83-114 | the early tier is appended and its obstacle batch queued, the gas tanks queued, and the pace and original food interval set |
| Pooling.ObjectPool.StartObstacles | Assets/Scripts/ObjectPool.cs:83-86 | the early tier is appended to the active list and its obstacle batch joins the queue |
| Pooling.ObjectPool.UnlockMid | Assets/Scripts/ObjectPool.cs:146-155 | when the mid tier unlocks, its prefabs are appended to the active list and its obstacle batch is queued; otherwise nothing changes |
| Pooling.ObjectPool.UnlockLate | Assets/Scripts/ObjectPool.cs:158-167 | the same for the late tier |
| Pooling.ObjectPool.UnlockStep | Assets/Scripts/ObjectPool.cs:146-167 | the tiers become SpawnSchedule.UnlockTiers of the old ones, and the queue gains the unlocked tiers' batches |
| Pooling.ObjectPool.CheckpointStep | Assets/Scripts/ObjectPool.cs:170-176 | the pace becomes SpawnSchedule.Checkpoint of the old one |
| Pooling.ObjectPool.AdvanceClock | Assets/Scripts/ObjectPool.cs:143-176 | the clock becomes SpawnSchedule.Advance of the old one, and the obstacle queue gains the batches of the tiers that unlocked |
| Pooling.ObjectPool.SpawnFood | Assets/Scripts/ObjectPool.cs:179-186 | the food timer follows AdvanceTimer; when it fires the head of the food queue (or a new object on a miss) is handed out at x = 11 and the drawn height; the spawn faults exactly when the queue is empty and there is no prefab; a queued object adds Activated and, with a mover, StateReset to the log, a new one nothing |
| Pooling.ObjectPool.SpawnObstacle | Assets/Scripts/ObjectPool.cs:189-205 | only while some type is active the obstacle timer follows AdvanceTimer; when it fires an obstacle is handed out at x = 11 in the drawn lane: from a non-empty queue the anti-repeat choice, leaving the rest in order and logging its reset and activation; from an empty queue a new instance of the MissIndex type, logging nothing; without firing, queue, last type and log are unchanged; the clock and food interval are untouched |
| Pooling.ObjectPool.SpawnGasTank | Assets/Scripts/ObjectPool.cs:208-219 | only with a gas tank prefab the gas timer follows AdvanceTimer; when it fires the head of the gas tank queue, which loses it and logs its reset and activation, or a new tank with nothing logged, is handed out at x = 11; without firing, queue and log are unchanged; the clock and food interval are untouched |
| Pooling.ObjectPool.Update | Assets/Scripts/ObjectPool.cs:140-220 | the clock becomes SpawnSchedule.Advance of the old one and the obstacle queue gains the unlocked batches; the food interval and turbo switch are unchanged; the three spawners then act on that state as SpawnOutcome states: each timer, the new food, obstacle and gas tank queues, the last obstacle type (unchanged unless an obstacle fires) and the log; a food fault ends the frame before the other two |
| Pooling.ObjectPool.Spawners | Assets/Scripts/ObjectPool.cs:178-219 | the food, obstacle and gas tank spawners in that order, as SpawnOutcome states (timers, the three queues, the last obstacle type and the log); a food fault skips the other two; the clock and food interval are untouched |
| Pooling.ObjectPool.SpawnObstacleAndGasTank | Assets/Scripts/ObjectPool.cs:188-219 | an obstacle is handed out iff some type is active and its timer fires, and a gas tank iff there is a prefab and its timer fires; both queues, the last obstacle type and the log change as ObstacleSpawned and GasSpawned state |

## Left out

- Unity plumbing: `Debug.Log`, `Awake` singleton registration, `FindObjectOfType`, the `EffectPool` effect spawned on return, transforms as vectors, and `GetComponent` probing. An object's components are fixed by its prefab's `kind` and `parts`.
- UI: the slider value and the colour blending of `UpdateFuelBar`, `OnFuelBarFull` (only a log line), and the turbo button's listener wiring. The button is its `interactable` flag.
- `BusController.OnTriggerEnter2D` and the collaborators it calls (ScoreManager, HealthManager, ObstacleController.DestroyObstacle) are not part of this model. The damage handed to the health manager is a counter.
- The obstacle and gas tank controllers (`ObstacleController`, `BouncingTireController`, `SimpleBouncingTire`, `GasTankPickup`) are not part of this model. An `Initialize` followed by `ResetState` on a dequeued object is one `StateReset` entry in the pool's log; an `Initialize` alone on a newly created object (a miss in `GetFromPool`, `GetObstacleFromPool` or `GetGasTankFromPool`, the gas tanks made in `Start`, `InitializeObstaclePool`) is not recorded.
- The legacy `obstaclePrefabs` list only produces a warning and is left out.
- Floating point: all times, speeds and positions are reals, so rounding is not modelled.
- `GetFuelPercentage` with `maxFuelTanks` = 0 divides 0 by 0. The result is NaN in C#; the model returns `None`.
- Randomness: `Random.value` and `Random.Range` are parameters. The bounds of their ranges (food height -1..1.4, gas tank height -0.2..0.4, lane jitter) are not constrained, and distributions are not modelled.
- The `ScaleToSize` lerp coroutine is recorded only as the scale it ends at (`scaleTarget`).
- Rigidbody physics: `FixedUpdate` sets the velocity and clamps the position. Integrating the velocity into the position is not modelled.
- Coroutines: the boost's `WaitForSeconds` is an elapsed-time counter, advanced by `Tick` once per frame. Unity resumes the coroutine on the first frame at which the counter reaches boostDuration.
- `Instantiate(null)` throws in Unity:
  - in `Start` it aborts the rest of `Start`;
  - in `GetFromPool` and `GetGasTankFromPool` nothing is created and null is returned;
  - in `Update` a food fault ends the frame.
- `TurboBoostManager.Instance` in `PooledObjectMover.Update` becomes the `boostActive` parameter. This avoids a cycle between the pool and the coordinator.
- Pooling.PooledObjectMover.Initialize: the one-time `EffectPool` lookup is not modelled.
- Pooling.ObjectPool.Activate: it requires an object just taken from its queue: tracked by the pool, inactive, and in none of the three queues. `SetActive(true)` on an already active object, a no-op in Unity, never arises when the pool hands out its own queued objects.
- Pooling.ObjectPool.Update: its ensures does not restate the positions of the spawned food and obstacle. `SpawnFood` and `SpawnObstacle` state them.
- Obstacle type names: a dequeued obstacle's type is its clone name with "(Clone)" removed and trimmed, a newly instantiated one's is the prefab's raw name. The model has one type name per prefab, so it assumes the two agree (no prefab name with surrounding spaces).
- Pooling.ObjectPool.GetFromPool: the contract for a miss does not say which prefab's mover settings the new object carries, beyond it being an instance of the chosen prefab.
