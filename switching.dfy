/**
 * The on/off switch: a state in {0, 1} flipped by each Space key press edge,
 * and the label shown for it.
 */
module Switching {
  import opened Wrappers

  /** The switch state after one frame, `pressed` being the key's just-pressed edge. */
  function Flip(s: int, pressed: bool): (r: int)
    ensures (s == 0 || s == 1) ==> r == 0 || r == 1
    ensures pressed && (s == 0 || s == 1) ==> r == 1 - s
    ensures !pressed || !(s == 0 || s == 1) ==> r == s
  {
    if s == 1 && pressed then 0
    else if s == 0 && pressed then 1
    else s
  }

  /** The label drawn for a switch state; a state outside {0, 1} draws none. */
  function Label(s: int): (r: Option<string>)
    ensures r.Some? <==> s == 0 || s == 1
    ensures s == 1 ==> r == Some("On")
    ensures s == 0 ==> r == Some("Off")
  {
    if s == 1 then Some("On") else if s == 0 then Some("Off") else None
  }

  /** The switch state after a run of frames, one key edge per frame. */
  function SwitchAfter(s: int, edges: seq<bool>): int
    decreases |edges|
  {
    if edges == [] then s else SwitchAfter(Flip(s, edges[0]), edges[1..])
  }

  /** How many frames of a run saw a press edge. */
  function Presses(edges: seq<bool>): (n: nat)
    ensures n <= |edges|
    decreases |edges|
  {
    if edges == [] then 0 else (if edges[0] then 1 else 0) + Presses(edges[1..])
  }

  /**
   * Edge triggering: over any run of frames the switch flips once per press
   * edge, however long the key is held, so it ends where it started exactly
   * when the number of presses is even.
   */
  lemma {:induction false} SwitchAfterParity(s: int, edges: seq<bool>)
    requires s == 0 || s == 1
    ensures SwitchAfter(s, edges) == if Presses(edges) % 2 == 0 then s else 1 - s
    decreases |edges|
  {
    if edges != [] {
      SwitchAfterParity(Flip(s, edges[0]), edges[1..]);
    }
  }
}
