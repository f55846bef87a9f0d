/**
 * Per-frame motion of electrons and the LED's lightness: both are products
 * with the switch state, so both vanish when the switch is off.
 */
module Motion {
  import opened Heading
  import opened Collisions

  /** Distance per second of an electron at full speed. */
  const BaseSpeed: real := 30.0

  /** Lightness of the LED's colour at power 1.0 with the switch on. */
  const MaxLightness: real := 0.9

  /**
   * The displacement of one frame of `dt` seconds, accumulated flag by flag:
   * x and y each move by the base speed times the speed factor times the
   * switch state, along (right - left) and (up - down).
   */
  function Delta(dt: real, d: Direction, onOff: int): (r: (real, real))
    ensures onOff == 0 ==> r == (0.0, 0.0)
    ensures r.0 == BaseSpeed * dt * d.speed * onOff as real * (d.right - d.left)
    ensures r.1 == BaseSpeed * dt * d.speed * onOff as real * (d.up - d.down)
  {
    var on := onOff as real;
    var dx := (-BaseSpeed * dt * d.left * d.speed * on) + (BaseSpeed * dt * d.right * d.speed * on);
    var dy := (-BaseSpeed * dt * d.down * d.speed * on) + (BaseSpeed * dt * d.up * d.speed * on);
    assert onOff == 0 ==> dx == 0.0 && dy == 0.0;
    (dx, dy)
  }

  /**
   * With the switch on, an electron in phase `k` moves along one axis only:
   * left, down, right and up for phases 0 to 3.
   */
  lemma DeltaAlongPhase(dt: real, k: int, speed: real)
    requires 0 <= k < 4
    ensures var v := BaseSpeed * dt * speed;
            Delta(dt, Phase(k, speed), 1) == [(-v, 0.0), (0.0, -v), (v, 0.0), (0.0, v)][k]
  {
    var d := Phase(k, speed);
    var v := BaseSpeed * dt * speed;
    var r := Delta(dt, d, 1);
    assert r.0 == v * (d.right - d.left) && r.1 == v * (d.up - d.down);
    if k == 0 {
      assert d == Direction(1.0, 0.0, 0.0, 0.0, speed);
    } else if k == 1 {
      assert d == Direction(0.0, 1.0, 0.0, 0.0, speed);
    } else if k == 2 {
      assert d == Direction(0.0, 0.0, 1.0, 0.0, speed);
    } else {
      assert d == Direction(0.0, 0.0, 0.0, 1.0, speed);
    }
  }

  /** An electron after one frame: only its position changes, and not at all when off. */
  function Moved(e: Electron, dt: real, onOff: int): (r: Electron)
    ensures r.count == e.count && r.dir == e.dir && r.hit == e.hit
    ensures onOff == 0 ==> r == e
    ensures r.x == e.x + Delta(dt, e.dir, onOff).0 && r.y == e.y + Delta(dt, e.dir, onOff).1
  {
    var (dx, dy) := Delta(dt, e.dir, onOff);
    e.(x := e.x + dx, y := e.y + dy)
  }

  /**
   * With the switch on, time passing and a positive speed factor, an
   * electron in phase 0, 1, 2, 3 moves strictly left, down, right, up and
   * keeps its other coordinate.
   */
  lemma MovedAlongPhase(e: Electron, dt: real, k: int)
    requires 0 <= k < 4 && e.dir == Phase(k, e.dir.speed)
    requires dt > 0.0 && e.dir.speed > 0.0
    ensures var r := Moved(e, dt, 1);
            && (k == 0 ==> r.x < e.x && r.y == e.y)
            && (k == 1 ==> r.y < e.y && r.x == e.x)
            && (k == 2 ==> r.x > e.x && r.y == e.y)
            && (k == 3 ==> r.y > e.y && r.x == e.x)
  {
    DeltaAlongPhase(dt, k, e.dir.speed);
    var v := BaseSpeed * dt * e.dir.speed;
    assert v > 0.0 by {
      assert BaseSpeed * dt > 0.0;
    }
  }

  /**
   * The LED's lightness: zero when the switch is off, and between zero and
   * its maximum while the power is a speed factor and the switch is a bit.
   */
  function Lightness(power: real, onOff: int): (r: real)
    ensures onOff == 0 ==> r == 0.0
    ensures 0.0 <= power <= 1.0 && (onOff == 0 || onOff == 1) ==> 0.0 <= r <= MaxLightness
    ensures onOff == 1 ==> r == MaxLightness * power
  {
    MaxLightness * power * onOff as real
  }

  /**
   * Each further resistor an electron passes before reaching the LED leaves
   * the LED strictly dimmer.
   */
  lemma {:induction false} DimmerPastResistor(n: nat)
    ensures 0.0 < Lightness(Damping(n + 1), 1) < Lightness(Damping(n), 1)
  {
    assert Damping(n + 1) == Attenuation * Damping(n);
  }
}
