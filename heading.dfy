/**
 * The `Direction` component of an electron and the rule that derives its
 * heading from the number of wall collisions it has seen.
 */
module Heading {

  /**
   * The five-field `Direction` component: four heading flags and the speed
   * factor. Flag `left` moves along -x, `down` along -y, `right` along +x and
   * `up` along +y (the world's y axis points up).
   */
  datatype Direction = Direction(left: real, down: real, right: real, up: real, speed: real)

  /**
   * Rust's `a % 4` on integers: truncated toward zero, so a negative `a`
   * gives a remainder in -3..0 where Dafny's Euclidean `%` gives one in 0..3.
   */
  function RustRem4(a: int): (r: int)
    ensures r == 0 <==> a % 4 == 0
    ensures a >= 0 ==> r == a % 4
    ensures a < 0 ==> -4 < r <= 0 && (r == 0 || r == a % 4 - 4)
  {
    if a >= 0 then a % 4 else -((-a) % 4)
  }

  /** Flag `i` of a heading, in the order of the component's fields. */
  function Flag(d: Direction, i: int): real
    requires 0 <= i < 4
  {
    if i == 0 then d.left else if i == 1 then d.down else if i == 2 then d.right else d.up
  }

  /** The heading table: phase `k` of a lap raises flag `k` and lowers the other three. */
  function Phase(k: int, speed: real): (d: Direction)
    requires 0 <= k < 4
    ensures d.speed == speed
    ensures forall i :: 0 <= i < 4 ==> Flag(d, i) == if i == k then 1.0 else 0.0
  {
    match k
    case 0 => Direction(1.0, 0.0, 0.0, 0.0, speed)
    case 1 => Direction(0.0, 1.0, 0.0, 0.0, speed)
    case 2 => Direction(0.0, 0.0, 1.0, 0.0, speed)
    case _ => Direction(0.0, 0.0, 0.0, 1.0, speed)
  }

  /**
   * The chain of four guarded branches that runs after every electron
   * collision. Each guard tests `count - j` for divisibility by 4 with Rust's
   * remainder; when no guard holds the flags are left as they were. The
   * contract says that for every count, negative ones included, exactly the
   * branch of phase `count % 4` fires and the speed factor is kept.
   */
  function Reorient(count: int, d: Direction): (r: Direction)
    ensures r == Phase(count % 4, d.speed)
  {
    ShiftedPhase(count);
    if count == 0 || RustRem4(count) == 0 then
      d.(left := 1.0, down := 0.0, right := 0.0, up := 0.0)
    else if count - 1 == 0 || RustRem4(count - 1) == 0 then
      d.(left := 0.0, down := 1.0, right := 0.0, up := 0.0)
    else if count - 2 == 0 || RustRem4(count - 2) == 0 then
      d.(left := 0.0, down := 0.0, right := 1.0, up := 0.0)
    else if count - 3 == 0 || RustRem4(count - 3) == 0 then
      d.(left := 0.0, down := 0.0, right := 0.0, up := 1.0)
    else
      d
  }

  /** `count - j` is a multiple of 4 exactly when `count` is in phase `j`. */
  lemma ShiftedPhase(count: int)
    ensures (count - 1) % 4 == 0 <==> count % 4 == 1
    ensures (count - 2) % 4 == 0 <==> count % 4 == 2
    ensures (count - 3) % 4 == 0 <==> count % 4 == 3
  {
    var q, k := count / 4, count % 4;
    assert count == 4 * q + k;
    assert count - 1 == 4 * q + (k - 1);
    assert count - 2 == 4 * q + (k - 2);
    assert count - 3 == 4 * q + (k - 3);
  }

  /**
   * One more wall collision advances the heading to the next phase of the
   * lap, wrapping from the last phase back to the first.
   */
  lemma ReorientAdvances(count: int, d: Direction)
    ensures Reorient(count + 1, d) == Phase(if count % 4 == 3 then 0 else count % 4 + 1, d.speed)
  {
  }
}
