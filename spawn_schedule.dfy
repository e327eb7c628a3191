/**
 * The time-driven part of ObjectPool.Update: the game clock, the latched unlocking of the
 * mid- and late-game obstacle tiers, the progressive shortening of the obstacle spawn
 * interval at checkpoints, the three spawn timers, the food cadence under turbo boost and
 * the make-up of an obstacle batch created by InitializeObstaclePool.
 *
 * Time is a real number of seconds; floating-point rounding is not modelled.
 */
module SpawnSchedule {

  /** Game time at which the mid-game tier unlocks. */
  const MidUnlockTime: real := 25.0
  /** Game time at which the late-game tier unlocks. */
  const LateUnlockTime: real := 50.0

  /** Mathf.Max on two values. */
  function Max(a: real, b: real): real { if a >= b then a else b }

  function MinInt(a: int, b: int): int { if a <= b then a else b }

  // ---------------------------------------------------------------------------------------
  // Obstacle tiers

  /** The obstacle prefabs available to the spawner and the two unlock latches. */
  datatype Tiers<P> = Tiers(active: seq<P>, midUnlocked: bool, lateUnlocked: bool)

  /** A tier unlocks when it is still locked, its time has come and it holds a prefab. */
  predicate TierUnlocks(unlocked: bool, gameTime: real, threshold: real, tierSize: nat) {
    !unlocked && gameTime >= threshold && tierSize > 0
  }

  /** The unlock step of one Update: the mid tier first, then the late tier. */
  function UnlockTiers<P>(t: Tiers<P>, gameTime: real, mid: seq<P>, late: seq<P>): (r: Tiers<P>)
    ensures t.active <= r.active
    ensures r.midUnlocked == (t.midUnlocked || (gameTime >= MidUnlockTime && |mid| > 0))
    ensures r.lateUnlocked == (t.lateUnlocked || (gameTime >= LateUnlockTime && |late| > 0))
    ensures t.midUnlocked && t.lateUnlocked ==> r == t
  {
    var afterMid :=
      if TierUnlocks(t.midUnlocked, gameTime, MidUnlockTime, |mid|)
      then Tiers(t.active + mid, true, t.lateUnlocked) else t;
    if TierUnlocks(afterMid.lateUnlocked, gameTime, LateUnlockTime, |late|)
    then Tiers(afterMid.active + late, afterMid.midUnlocked, true) else afterMid
  }

  /**
   * What the tiers are once the clock has reached `time`, starting from the early tier: each
   * non-empty later tier appended once, in unlock order.
   */
  function TiersAt<P>(early: seq<P>, mid: seq<P>, late: seq<P>, time: real): Tiers<P> {
    var midOn := time >= MidUnlockTime && |mid| > 0;
    var lateOn := time >= LateUnlockTime && |late| > 0;
    Tiers(early + (if midOn then mid else []) + (if lateOn then late else []), midOn, lateOn)
  }

  /** One unlock step on a later clock reading moves the tiers along TiersAt. */
  lemma UnlockTiersFollowsClock<P>(early: seq<P>, mid: seq<P>, late: seq<P>, t0: real, t1: real)
    requires t0 <= t1
    ensures UnlockTiers(TiersAt(early, mid, late, t0), t1, mid, late) == TiersAt(early, mid, late, t1)
  {
    var before := TiersAt(early, mid, late, t0);
    if !before.lateUnlocked {
      var midOn := t1 >= MidUnlockTime && |mid| > 0;
      var afterMid := if TierUnlocks(before.midUnlocked, t1, MidUnlockTime, |mid|)
                      then Tiers(before.active + mid, true, before.lateUnlocked) else before;
      assert afterMid.active == early + (if midOn then mid else []);
    }
  }

  // ---------------------------------------------------------------------------------------
  // Obstacle spawn interval and checkpoints

  /** Obstacle spawn settings: initial interval, decrease per checkpoint, floor, checkpoint period. */
  datatype ScheduleConfig = ScheduleConfig(initial: real, decrease: real, minimum: real, period: real)

  /** The live obstacle spawn interval and the game time of the next checkpoint. */
  datatype Pace = Pace(current: real, next: real)

  /** The pace set by Start. */
  function StartPace(cfg: ScheduleConfig): Pace {
    Pace(cfg.initial, cfg.period)
  }

  /** One decrease of the interval, floored at the minimum; nothing once at or below it. */
  function DecayStep(current: real, cfg: ScheduleConfig): (r: real)
    ensures cfg.decrease >= 0.0 ==> r <= current
    ensures current > cfg.minimum ==> r >= cfg.minimum
    ensures current <= cfg.minimum ==> r == current
  {
    if current > cfg.minimum then Max(cfg.minimum, current - cfg.decrease) else current
  }

  predicate CheckpointDue(p: Pace, gameTime: real, cfg: ScheduleConfig) {
    gameTime >= p.next && p.current > cfg.minimum
  }

  /**
   * The checkpoint step of one Update. When due, the interval decays and the next
   * checkpoint is scheduled one period after the current time (not after the old checkpoint).
   */
  function Checkpoint(p: Pace, gameTime: real, cfg: ScheduleConfig): (r: Pace)
    ensures CheckpointDue(p, gameTime, cfg) ==>
              r.current == Max(cfg.minimum, p.current - cfg.decrease) && r.next == gameTime + cfg.period
    ensures !CheckpointDue(p, gameTime, cfg) ==> r == p
    ensures p.current <= cfg.minimum ==> r == p
    ensures cfg.decrease >= 0.0 ==> r.current <= p.current
    ensures r != p ==> r.current >= cfg.minimum
  {
    if CheckpointDue(p, gameTime, cfg) then Pace(DecayStep(p.current, cfg), gameTime + cfg.period) else p
  }

  /**
   * The interval after n checkpoints have fired: Checkpoint's DecayStep iterated n times.
   * RunPaceIsDecayed ties it to the clock: a run of frames leaves exactly
   * Decayed(start, cfg, CheckpointsFired(...)).
   */
  function Decayed(current: real, cfg: ScheduleConfig, n: nat): real {
    if n == 0 then current else DecayStep(Decayed(current, cfg, n - 1), cfg)
  }

  /** After n checkpoints the interval is the initial one less n decreases, floored at the minimum. */
  lemma {:induction false} DecayedClosedForm(cfg: ScheduleConfig, n: nat)
    requires cfg.decrease >= 0.0 && cfg.minimum <= cfg.initial
    ensures Decayed(cfg.initial, cfg, n) == Max(cfg.minimum, cfg.initial - n as real * cfg.decrease)
  {
    if n > 0 {
      DecayedClosedForm(cfg, n - 1);
      assert (n - 1) as real * cfg.decrease + cfg.decrease == n as real * cfg.decrease;
    }
  }

  /**
   * Scenario: initial 3.0, decrease 0.2, minimum 1.0 gives 2.0 after five checkpoints and
   * 1.0 after ten or more.
   */
  lemma ScenarioDecayReachesFloor(n: nat)
    requires n >= 10
    ensures Decayed(3.0, ScheduleConfig(3.0, 0.2, 1.0, 40.0), 5) == 2.0
    ensures Decayed(3.0, ScheduleConfig(3.0, 0.2, 1.0, 40.0), n) == 1.0
  {
    var cfg := ScheduleConfig(3.0, 0.2, 1.0, 40.0);
    DecayedClosedForm(cfg, 5);
    DecayedClosedForm(cfg, n);
    assert n as real * 0.2 >= 2.0;
  }

  /**
   * The bounds the interval keeps: never above the configured interval, and at or above the
   * floor unless the configured interval itself starts below it (then it never moves).
   */
  predicate IntervalInBounds(current: real, cfg: ScheduleConfig) {
    current <= cfg.initial && (cfg.minimum <= current || current == cfg.initial)
  }

  // ---------------------------------------------------------------------------------------
  // The clock: gameTime, tiers and pace advanced together, tick after tick

  datatype Timeline<P> = Timeline(gameTime: real, tiers: Tiers<P>, pace: Pace)

  /** The clock part of one Update: advance time, unlock tiers, then evaluate the checkpoint. */
  function Advance<P>(tl: Timeline<P>, dt: real, mid: seq<P>, late: seq<P>, cfg: ScheduleConfig): (r: Timeline<P>)
    ensures r.gameTime == tl.gameTime + dt
  {
    var t := tl.gameTime + dt;
    Timeline(t, UnlockTiers(tl.tiers, t, mid, late), Checkpoint(tl.pace, t, cfg))
  }

  /** The clock after a sequence of frame times. */
  function Run<P>(tl: Timeline<P>, dts: seq<real>, mid: seq<P>, late: seq<P>, cfg: ScheduleConfig): Timeline<P>
    decreases |dts|
  {
    if dts == [] then tl else Run(Advance(tl, dts[0], mid, late, cfg), dts[1..], mid, late, cfg)
  }

  predicate NonNegative(dts: seq<real>) {
    forall i :: 0 <= i < |dts| ==> dts[i] >= 0.0
  }

  /** The clock set by Start: time 0, early tier only, initial pace. */
  function StartTimeline<P>(early: seq<P>, cfg: ScheduleConfig): Timeline<P> {
    Timeline(0.0, Tiers(early, false, false), StartPace(cfg))
  }

  /**
   * Over any run of frames, the active obstacle list is the early tier followed by each later
   * tier exactly once, appended as soon as the clock passed its unlock time; so it only grows.
   */
  lemma {:induction false} RunUnlocksEachTierOnce<P>(
    early: seq<P>, mid: seq<P>, late: seq<P>, cfg: ScheduleConfig, tl: Timeline<P>, dts: seq<real>)
    requires tl.tiers == TiersAt(early, mid, late, tl.gameTime)
    requires NonNegative(dts)
    ensures Run(tl, dts, mid, late, cfg).gameTime >= tl.gameTime
    ensures Run(tl, dts, mid, late, cfg).tiers == TiersAt(early, mid, late, Run(tl, dts, mid, late, cfg).gameTime)
    ensures tl.tiers.active <= Run(tl, dts, mid, late, cfg).tiers.active
    decreases |dts|
  {
    if dts != [] {
      var next := Advance(tl, dts[0], mid, late, cfg);
      UnlockTiersFollowsClock(early, mid, late, tl.gameTime, next.gameTime);
      RunUnlocksEachTierOnce(early, mid, late, cfg, next, dts[1..]);
    }
  }

  /** From Start on, the tiers are exactly TiersAt the current game time. */
  lemma StartTiersMatchClock<P>(early: seq<P>, mid: seq<P>, late: seq<P>, cfg: ScheduleConfig, dts: seq<real>)
    requires NonNegative(dts)
    ensures Run(StartTimeline(early, cfg), dts, mid, late, cfg).tiers
         == TiersAt(early, mid, late, Run(StartTimeline(early, cfg), dts, mid, late, cfg).gameTime)
  {
    var tl: Timeline<P> := StartTimeline(early, cfg);
    assert TiersAt(early, mid, late, 0.0).active == early;
    RunUnlocksEachTierOnce(early, mid, late, cfg, tl, dts);
  }

  /**
   * Over any run of frames, the interval stays within its bounds and never increases, and
   * once it is at or below the floor it and the next checkpoint stay put.
   */
  lemma {:induction false} RunKeepsIntervalBounds<P>(
    tl: Timeline<P>, dts: seq<real>, mid: seq<P>, late: seq<P>, cfg: ScheduleConfig)
    requires cfg.decrease >= 0.0
    requires IntervalInBounds(tl.pace.current, cfg)
    ensures IntervalInBounds(Run(tl, dts, mid, late, cfg).pace.current, cfg)
    ensures Run(tl, dts, mid, late, cfg).pace.current <= tl.pace.current
    ensures tl.pace.current <= cfg.minimum ==> Run(tl, dts, mid, late, cfg).pace == tl.pace
    decreases |dts|
  {
    if dts != [] {
      RunKeepsIntervalBounds(Advance(tl, dts[0], mid, late, cfg), dts[1..], mid, late, cfg);
    }
  }

  /** How many checkpoints fire during a run of frames. */
  function CheckpointsFired<P>(tl: Timeline<P>, dts: seq<real>, mid: seq<P>, late: seq<P>, cfg: ScheduleConfig): (n: nat)
    ensures n <= |dts|
    decreases |dts|
  {
    if dts == [] then 0
    else (if CheckpointDue(tl.pace, tl.gameTime + dts[0], cfg) then 1 else 0)
         + CheckpointsFired(Advance(tl, dts[0], mid, late, cfg), dts[1..], mid, late, cfg)
  }

  /** Decaying once and then n more times is decaying n + 1 times. */
  lemma {:induction false} DecayedAfterStep(current: real, cfg: ScheduleConfig, n: nat)
    ensures Decayed(DecayStep(current, cfg), cfg, n) == Decayed(current, cfg, n + 1)
  {
    if n > 0 {
      DecayedAfterStep(current, cfg, n - 1);
    }
  }

  /**
   * After any run of frames the obstacle interval is the starting one decayed once per
   * checkpoint that fired during the run, and by nothing else.
   */
  lemma {:induction false} RunPaceIsDecayed<P>(
    tl: Timeline<P>, dts: seq<real>, mid: seq<P>, late: seq<P>, cfg: ScheduleConfig)
    ensures Run(tl, dts, mid, late, cfg).pace.current
         == Decayed(tl.pace.current, cfg, CheckpointsFired(tl, dts, mid, late, cfg))
    decreases |dts|
  {
    if dts != [] {
      var next := Advance(tl, dts[0], mid, late, cfg);
      RunPaceIsDecayed(next, dts[1..], mid, late, cfg);
      var rest := CheckpointsFired(next, dts[1..], mid, late, cfg);
      if CheckpointDue(tl.pace, tl.gameTime + dts[0], cfg) {
        DecayedAfterStep(tl.pace.current, cfg, rest);
      }
    }
  }

  // ---------------------------------------------------------------------------------------
  // Spawn timers and the food cadence

  /** A spawn timer after one frame, and whether it requested a spawn. */
  datatype TimerStep = TimerStep(timer: real, fired: bool)

  /**
   * A timer accumulates frame time; on reaching its interval it restarts at 0 and requests
   * exactly one spawn. With a positive interval it always stays below the interval.
   */
  function AdvanceTimer(timer: real, dt: real, interval: real): (r: TimerStep)
    ensures r.fired <==> timer + dt >= interval
    ensures r.fired ==> r.timer == 0.0
    ensures !r.fired ==> r.timer == timer + dt
    ensures 0.0 <= timer && 0.0 <= dt && 0.0 < interval ==> 0.0 <= r.timer < interval
  {
    if timer + dt >= interval then TimerStep(0.0, true) else TimerStep(timer + dt, false)
  }

  /**
   * The food spawn interval for a turbo setting: half the original while turbo is on, the
   * original otherwise. It depends only on the original, so repeated switching never compounds.
   */
  function FoodInterval(original: real, turbo: bool): (r: real)
    ensures turbo ==> r + r == original
    ensures !turbo ==> r == original
  {
    if turbo then original / 2.0 else original
  }

  // ---------------------------------------------------------------------------------------
  // Obstacle batches made by InitializeObstaclePool

  /** C# integer division of a by a positive n, which truncates toward zero. */
  function TruncDiv(a: int, n: nat): (q: int)
    requires n > 0
    ensures a >= 0 ==> q == a / n
    ensures a < 0 ==> q <= 0
  {
    if a >= 0 then a / n else -((-a) / n)
  }

  /** Copies made of each prefab: Mathf.Max(2, poolSize / n). */
  function PerPrefab(poolSize: int, n: nat): (per: nat)
    requires n > 0
    ensures per >= 2
    ensures poolSize >= 2 * n ==> per == poolSize / n
    ensures poolSize < 2 * n ==> per == 2
  {
    var q := TruncDiv(poolSize, n);
    if q >= 2 then q else 2
  }

  function Repeat<P>(p: P, count: nat): (r: seq<P>)
    ensures |r| == count
    ensures forall i :: 0 <= i < count ==> r[i] == p
  {
    seq(count, _ => p)
  }

  /** Every prefab `per` times, in catalogue order. */
  function Layout<P>(prefabs: seq<P>, per: nat): seq<P>
    decreases |prefabs|
  {
    if prefabs == [] then [] else Repeat(prefabs[0], per) + Layout(prefabs[1..], per)
  }

  /**
   * The prefabs instantiated by the nested loops of InitializeObstaclePool: up to `per`
   * copies of each prefab, in order, until `budget` objects have been made.
   */
  function Batch<P>(prefabs: seq<P>, per: nat, budget: int): seq<P>
    decreases |prefabs|
  {
    if prefabs == [] || budget <= 0 then []
    else
      var take := MinInt(per, budget);
      Repeat(prefabs[0], take) + Batch(prefabs[1..], per, budget - take)
  }

  /** A batch holds min(budget, per * n) objects, and none for a non-positive budget. */
  lemma {:induction false} BatchSize<P>(prefabs: seq<P>, per: nat, budget: int)
    ensures |Batch(prefabs, per, budget)| == if budget <= 0 then 0 else MinInt(budget, per * |prefabs|)
    decreases |prefabs|
  {
    if prefabs != [] && budget > 0 {
      var take := MinInt(per, budget);
      BatchSize(prefabs[1..], per, budget - take);
      assert per * |prefabs| == per + per * (|prefabs| - 1);
      assert per * (|prefabs| - 1) >= 0;
    }
  }

  /** A batch is a prefix of the full layout: prefab order, `per` copies each, cut at the budget. */
  lemma {:induction false} BatchIsLayoutPrefix<P>(prefabs: seq<P>, per: nat, budget: int)
    ensures Batch(prefabs, per, budget) <= Layout(prefabs, per)
    decreases |prefabs|
  {
    if prefabs != [] && budget > 0 {
      var take := MinInt(per, budget);
      BatchIsLayoutPrefix(prefabs[1..], per, budget - take);
      if take < per {
        assert Batch(prefabs[1..], per, budget - take) == [];
        assert Repeat(prefabs[0], take) <= Repeat(prefabs[0], per);
      }
    }
  }

  /**
   * What InitializeObstaclePool creates for a prefab list and a pool size: nothing for an
   * empty list, otherwise min(poolSize, max(2, poolSize / n) * n) objects laid out in
   * prefab order.
   */
  lemma ObstacleBatchShape<P>(prefabs: seq<P>, poolSize: int)
    requires |prefabs| > 0
    ensures var b := Batch(prefabs, PerPrefab(poolSize, |prefabs|), poolSize);
            |b| == (if poolSize <= 0 then 0 else MinInt(poolSize, PerPrefab(poolSize, |prefabs|) * |prefabs|))
            && b <= Layout(prefabs, PerPrefab(poolSize, |prefabs|))
  {
    BatchSize(prefabs, PerPrefab(poolSize, |prefabs|), poolSize);
    BatchIsLayoutPrefix(prefabs, PerPrefab(poolSize, |prefabs|), poolSize);
  }

  /** How many copies of one prefab a batch takes out of the remaining budget. */
  function Take(per: nat, budget: int): nat {
    if budget > 0 then MinInt(per, budget) else 0
  }

  /** A batch from position k on is the copies of prefab k followed by the batch after it. */
  lemma BatchStep<P>(prefabs: seq<P>, k: nat, per: nat, budget: int)
    requires k < |prefabs|
    ensures Batch(prefabs[k..], per, budget)
         == Repeat(prefabs[k], Take(per, budget)) + Batch(prefabs[k + 1..], per, budget - Take(per, budget))
  {
    assert prefabs[k..][1..] == prefabs[k + 1..];
    if budget <= 0 {
      assert Batch(prefabs[k + 1..], per, budget) == [];
    }
  }

  /** The part of a batch made so far grows by the copies of prefab k. */
  lemma BatchAdvance<P>(prefabs: seq<P>, k: nat, per: nat, budget: int, done: seq<P>, made: seq<P>, batch: seq<P>)
    requires k < |prefabs|
    requires done + Batch(prefabs[k..], per, budget) == batch
    requires made == Repeat(prefabs[k], Take(per, budget))
    ensures (done + made) + Batch(prefabs[k + 1..], per, budget - Take(per, budget)) == batch
  {
    BatchStep(prefabs, k, per, budget);
  }

  /** The prefabs one InitializeObstaclePool call instantiates, in order. */
  function ObstacleBatch<P>(prefabs: seq<P>, poolSize: int): seq<P> {
    if prefabs == [] then [] else Batch(prefabs, PerPrefab(poolSize, |prefabs|), poolSize)
  }
}
