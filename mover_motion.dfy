/**
 * The pure rules of PooledObjectMover: the speed latched on first enable, the speed used
 * each frame (doubled while a turbo boost is active), the horizontal step, and the
 * off-screen return test.
 */
module MoverMotion {

  /**
   * OnEnable's latch: the original speed is taken from moveSpeed only while it is still 0,
   * so the first non-zero value sticks through later enables.
   */
  function LatchSpeed(original: real, moveSpeed: real): (r: real)
    ensures original != 0.0 ==> r == original
    ensures original == 0.0 ==> r == moveSpeed
  {
    if original == 0.0 then moveSpeed else original
  }

  /** Enabling again never replaces a latched non-zero speed, whatever moveSpeed reads by then. */
  lemma LatchKeepsFirstSpeed(moveSpeed: real, later: seq<real>)
    requires moveSpeed != 0.0
    ensures LatchAll(LatchSpeed(0.0, moveSpeed), later) == moveSpeed
  {
    LatchAllKeepsNonZero(moveSpeed, later);
  }

  /** The original speed after enables that saw the given moveSpeed readings in turn. */
  function LatchAll(original: real, readings: seq<real>): real
    decreases |readings|
  {
    if readings == [] then original else LatchAll(LatchSpeed(original, readings[0]), readings[1..])
  }

  lemma {:induction false} LatchAllKeepsNonZero(original: real, readings: seq<real>)
    requires original != 0.0
    ensures LatchAll(original, readings) == original
    decreases |readings|
  {
    if readings != [] {
      LatchAllKeepsNonZero(LatchSpeed(original, readings[0]), readings[1..]);
    }
  }

  /**
   * The speed of one frame: twice the latched original speed while a boost is active, the
   * original speed otherwise. The moveSpeed field plays no part once latched.
   */
  function EffectiveSpeed(original: real, boostActive: bool): (r: real)
    ensures boostActive ==> r == original + original
    ensures !boostActive ==> r == original
  {
    if boostActive then original * 2.0 else original
  }

  /** The x position after one frame of leftward movement. */
  function Step(x: real, original: real, boostActive: bool, dt: real): (r: real)
    ensures original >= 0.0 && dt >= 0.0 ==> r <= x
    ensures boostActive ==> x - r == 2.0 * (x - Step(x, original, false, dt))
  {
    x - EffectiveSpeed(original, boostActive) * dt
  }

  /** The object leaves the field once it is at or left of offScreenX. */
  predicate OffScreen(x: real, offScreenX: real) {
    x <= offScreenX
  }
}
