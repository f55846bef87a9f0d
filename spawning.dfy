/**
 * The electron spawner: a tick counter that rises on every timer tick and a
 * spawn rule gated by the counter's cap and by the switch.
 */
module Spawning {
  import opened Heading
  import opened Collisions

  /** Spawning stops once the tick counter reaches this value. */
  const Cap: int := 35

  /** Height of the top rail, where electrons enter the loop. */
  const EntryY: real := 126.0

  /** A tick creates an electron when the counter is below the cap and the switch is on. */
  predicate Spawns(counter: int, onOff: int)
  {
    counter < Cap && onOff == 1
  }

  /**
   * A new electron: at the entry height, offset sideways by `offset / 100`
   * of the tick counter (the offset is a random integer in -10..9), heading
   * left at full speed with no collisions and an empty store.
   */
  function NewElectron(offset: int, counter: nat): (e: Electron)
    requires -10 <= offset < 10
    ensures forall maxId :: ElectronInv(e, maxId)
    ensures e.count == 0 && e.hit == [] && e.dir.speed == 1.0 && e.y == EntryY
    ensures e.dir == Phase(0, 1.0)
    ensures -0.1 * counter as real <= e.x <= 0.1 * counter as real
  {
    var f := offset as real * 0.01;
    ScaledBound(f, counter as real);
    Electron(f * counter as real, EntryY, 0, Direction(1.0, 0.0, 0.0, 0.0, 1.0), [])
  }

  lemma NonNegativeProduct(a: real, b: real)
    requires a >= 0.0 && b >= 0.0
    ensures a * b >= 0.0
  {
  }

  /** A factor of size at most 0.1 scales a non-negative number to at most a tenth of it. */
  lemma ScaledBound(f: real, c: real)
    requires -0.1 <= f <= 0.1 && c >= 0.0
    ensures -0.1 * c <= f * c <= 0.1 * c
  {
    NonNegativeProduct(0.1 - f, c);
    NonNegativeProduct(f + 0.1, c);
  }

  /**
   * How many electrons a run of spawn ticks creates, the counter starting at
   * 0; `ticks[i]` is the switch state seen at tick `i`.
   */
  function SpawnedOver(ticks: seq<int>): (n: nat)
    ensures n <= |ticks|
    ensures n <= Cap
    decreases |ticks|
  {
    if ticks == [] then 0
    else SpawnedOver(ticks[..|ticks| - 1]) + (if Spawns(|ticks| - 1, ticks[|ticks| - 1]) then 1 else 0)
  }

  /** With the switch on throughout, `n` ticks create min(n, 35) electrons. */
  lemma {:induction false} SpawnedOverAllOn(ticks: seq<int>)
    requires forall i :: 0 <= i < |ticks| ==> ticks[i] == 1
    ensures SpawnedOver(ticks) == if |ticks| < Cap then |ticks| else Cap
    decreases |ticks|
  {
    if ticks != [] {
      SpawnedOverAllOn(ticks[..|ticks| - 1]);
    }
  }

  /** With the switch off throughout, no tick creates an electron. */
  lemma {:induction false} SpawnedOverAllOff(ticks: seq<int>)
    requires forall i :: 0 <= i < |ticks| ==> ticks[i] == 0
    ensures SpawnedOver(ticks) == 0
    decreases |ticks|
  {
    if ticks != [] {
      SpawnedOverAllOff(ticks[..|ticks| - 1]);
    }
  }
}
