/**
 * The collision handler as a pure step over world data: which entity of a
 * collision-start pair is the electron, and what one contact does to that
 * electron's count, heading, speed factor and visited-resistor store, and to
 * the global LED power.
 */
module Collisions {
  import opened Heading

  /** An entity handle of the engine's world. */
  type Entity = nat

  /** A collision-start pair, in the order the physics engine reports it. */
  type Event = (Entity, Entity)

  /** A placed resistor: its `ResistorId` and its position. */
  datatype Resistor = Resistor(id: int, x: real, y: real)

  /**
   * An electron: its position, `NumCollisions`, `Direction` (heading flags
   * and speed factor) and the `id_store` of resistor ids it has passed.
   */
  datatype Electron = Electron(x: real, y: real, count: int, dir: Direction, hit: seq<int>)

  /** What a colliding electron can meet: corner walls, the LED and resistors. */
  datatype Scene = Scene(walls: set<Entity>, leds: set<Entity>, resistors: map<Entity, Resistor>)

  /** The part of the world the collision handler writes: the electrons and the LED power. */
  datatype Outcome = Outcome(electrons: map<Entity, Electron>, power: real)

  /** A resistor multiplies the speed factor of an electron by this, once. */
  const Attenuation: real := 0.8

  /** The speed factor of an electron that has passed `n` distinct resistors: 0.8^n. */
  function Damping(n: nat): (r: real)
    ensures 0.0 < r <= 1.0
  {
    if n == 0 then 1.0 else Attenuation * Damping(n - 1)
  }

  predicate Distinct(s: seq<int>)
  {
    forall i, j :: 0 <= i < j < |s| ==> s[i] != s[j]
  }

  /**
   * What every electron keeps: a count that never went below zero, the
   * heading of its phase, a store without repeats whose every id names a
   * placed resistor, and a speed factor of 0.8 to the size of that store.
   */
  predicate ElectronInv(e: Electron, maxId: int)
  {
    && e.count >= 0
    && e.dir == Phase(e.count % 4, e.dir.speed)
    && Distinct(e.hit)
    && e.dir.speed == Damping(|e.hit|)
    && (forall k :: 0 <= k < |e.hit| ==> 1 <= e.hit[k] <= maxId)
  }

  /**
   * Walls, the LED and resistors are distinct entities, and resistor ids are
   * unique and drawn from 1..maxId.
   */
  predicate SceneInv(sc: Scene, maxId: int)
  {
    && sc.walls !! sc.leds
    && sc.walls !! sc.resistors.Keys
    && sc.leds !! sc.resistors.Keys
    && (forall r :: r in sc.resistors ==> 1 <= sc.resistors[r].id <= maxId)
    && (forall r, s :: r in sc.resistors && s in sc.resistors && r != s ==>
          sc.resistors[r].id != sc.resistors[s].id)
  }

  /** Every electron keeps its invariant and the power is a speed factor or the initial 0.0. */
  predicate OutcomeInv(o: Outcome, maxId: int)
  {
    && 0.0 <= o.power <= 1.0
    && forall e :: e in o.electrons ==> ElectronInv(o.electrons[e], maxId)
  }

  /**
   * One contact of electron `el` with entity `other`, given the current LED
   * power; yields the updated electron and the new power. In order: a
   * resistor not yet in the store attenuates the speed factor and is
   * recorded; a wall (that is neither resistor nor LED) counts as a
   * collision; the LED takes the electron's speed factor as its power; and
   * the heading is recomputed from the count.
   */
  function Collide(sc: Scene, el: Electron, other: Entity, power: real): (r: (Electron, real))
    ensures r.0.x == el.x && r.0.y == el.y
    ensures r.0.count == if other in sc.walls && other !in sc.leds && other !in sc.resistors
                         then el.count + 1 else el.count
    ensures r.0.dir == Phase(r.0.count % 4, r.0.dir.speed)
    ensures other in sc.resistors && sc.resistors[other].id !in el.hit ==>
              && r.0.dir.speed == Attenuation * el.dir.speed
              && r.0.hit == el.hit + [sc.resistors[other].id]
    ensures !(other in sc.resistors && sc.resistors[other].id !in el.hit) ==>
              r.0.dir.speed == el.dir.speed && r.0.hit == el.hit
    ensures r.1 == if other in sc.leds then r.0.dir.speed else power
  {
    var firstVisit := other in sc.resistors && sc.resistors[other].id !in el.hit;
    var speed := if firstVisit then el.dir.speed * Attenuation else el.dir.speed;
    var hit := if firstVisit then el.hit + [sc.resistors[other].id] else el.hit;
    var count := if other !in sc.resistors && other !in sc.leds && other in sc.walls
                 then el.count + 1 else el.count;
    var power' := if other in sc.leds && (speed < power || speed > power) then speed else power;
    (el.(count := count, dir := Reorient(count, el.dir.(speed := speed)), hit := hit), power')
  }

  /**
   * One collision-start pair: the first entity that is an electron is the
   * one updated and the other entity is what it met; a pair with no electron
   * is skipped.
   */
  function ApplyEvent(sc: Scene, o: Outcome, ev: Event): (r: Outcome)
    ensures ev.0 !in o.electrons && ev.1 !in o.electrons ==> r == o
    ensures r.electrons.Keys == o.electrons.Keys
    ensures forall e :: e in o.electrons && e != ev.0 && e != ev.1 ==> r.electrons[e] == o.electrons[e]
    ensures r.power != o.power ==> ev.0 in sc.leds || ev.1 in sc.leds
    ensures ev.0 in o.electrons ==>
              var (e, p) := Collide(sc, o.electrons[ev.0], ev.1, o.power);
              r.electrons[ev.0] == e && r.power == p
    ensures ev.0 in o.electrons && ev.1 in o.electrons && ev.1 != ev.0 ==>
              r.electrons[ev.1] == o.electrons[ev.1]
    ensures ev.0 !in o.electrons && ev.1 in o.electrons ==>
              var (e, p) := Collide(sc, o.electrons[ev.1], ev.0, o.power);
              r.electrons[ev.1] == e && r.power == p
  {
    if ev.0 in o.electrons then
      var (e, p) := Collide(sc, o.electrons[ev.0], ev.1, o.power);
      Outcome(o.electrons[ev.0 := e], p)
    else if ev.1 in o.electrons then
      var (e, p) := Collide(sc, o.electrons[ev.1], ev.0, o.power);
      Outcome(o.electrons[ev.1 := e], p)
    else
      o
  }

  /**
   * When exactly one entity of a pair is an electron, the order in which
   * the engine reports the pair makes no difference.
   */
  lemma ApplyEventOrderFree(sc: Scene, o: Outcome, a: Entity, b: Entity)
    requires a in o.electrons && b !in o.electrons
    ensures ApplyEvent(sc, o, (a, b)) == ApplyEvent(sc, o, (b, a))
  {
  }

  /** A wall that is neither the LED nor a resistor: the only contact that counts. */
  predicate PlainWall(sc: Scene, w: Entity)
  {
    w in sc.walls && w !in sc.leds && w !in sc.resistors
  }

  /**
   * An electron meeting a plain wall, in either order of the pair, counts
   * exactly one collision; its speed factor, its store and the LED power
   * are unchanged.
   */
  lemma ApplyEventWallContact(sc: Scene, o: Outcome, e: Entity, w: Entity)
    requires e in o.electrons && w !in o.electrons && PlainWall(sc, w)
    ensures forall ev :: ev == (e, w) || ev == (w, e) ==>
              var r := ApplyEvent(sc, o, ev);
              && r.electrons[e].count == o.electrons[e].count + 1
              && r.electrons[e].dir.speed == o.electrons[e].dir.speed
              && r.electrons[e].hit == o.electrons[e].hit
              && r.power == o.power
  {
  }

  /**
   * Pair `ev` counts a wall collision for electron `e` of the live set
   * `keys`: `e` is the electron the pair updates, and what it met is a
   * plain wall.
   */
  predicate CountsFor(sc: Scene, keys: set<Entity>, ev: Event, e: Entity)
  {
    && e in keys
    && ((ev.0 == e && PlainWall(sc, ev.1)) || (ev.0 !in keys && ev.1 == e && PlainWall(sc, ev.0)))
  }

  /** How many pairs of a batch count a wall collision for electron `e`. */
  function WallContacts(sc: Scene, keys: set<Entity>, evs: seq<Event>, e: Entity): (n: nat)
    ensures n <= |evs|
    ensures e !in keys ==> n == 0
  {
    if evs == [] then 0
    else WallContacts(sc, keys, evs[..|evs| - 1], e) + if CountsFor(sc, keys, evs[|evs| - 1], e) then 1 else 0
  }

  /** One pair raises an electron's count by one exactly when it counts for that electron. */
  lemma ApplyEventCount(sc: Scene, o: Outcome, ev: Event, e: Entity)
    requires e in o.electrons
    ensures ApplyEvent(sc, o, ev).electrons[e].count
            == o.electrons[e].count + if CountsFor(sc, o.electrons.Keys, ev, e) then 1 else 0
  {
  }

  /** A batch of collision-start pairs, handled in the order they were reported. */
  function ApplyEvents(sc: Scene, o: Outcome, evs: seq<Event>): (r: Outcome)
    ensures r.electrons.Keys == o.electrons.Keys
    decreases |evs|
  {
    if evs == [] then o
    else ApplyEvent(sc, ApplyEvents(sc, o, evs[..|evs| - 1]), evs[|evs| - 1])
  }

  /** Handling the first `i + 1` pairs is handling the first `i` and then pair `i`. */
  lemma ApplyEventsSnoc(sc: Scene, o: Outcome, evs: seq<Event>, i: nat)
    requires i < |evs|
    ensures ApplyEvents(sc, o, evs[..i + 1]) == ApplyEvent(sc, ApplyEvents(sc, o, evs[..i]), evs[i])
  {
    assert evs[..i + 1][..i] == evs[..i];
  }

  /**
   * After a batch, every electron's collision count is its old count plus
   * the number of pairs in the batch in which it met a plain wall.
   */
  lemma {:induction false} ApplyEventsCount(sc: Scene, o: Outcome, evs: seq<Event>, e: Entity)
    requires e in o.electrons
    ensures ApplyEvents(sc, o, evs).electrons[e].count
            == o.electrons[e].count + WallContacts(sc, o.electrons.Keys, evs, e)
    decreases |evs|
  {
    if evs != [] {
      var prefix := evs[..|evs| - 1];
      ApplyEventsCount(sc, o, prefix, e);
      ApplyEventCount(sc, ApplyEvents(sc, o, prefix), evs[|evs| - 1], e);
    }
  }

  /** One contact keeps the electron's invariant, and an LED contact leaves a power in (0, 1]. */
  lemma CollidePreservesInv(sc: Scene, maxId: int, el: Electron, other: Entity, power: real)
    requires SceneInv(sc, maxId) && ElectronInv(el, maxId)
    ensures ElectronInv(Collide(sc, el, other, power).0, maxId)
    ensures other in sc.leds ==> 0.0 < Collide(sc, el, other, power).1 <= 1.0
  {
    var r := Collide(sc, el, other, power).0;
    if other in sc.resistors && sc.resistors[other].id !in el.hit {
      assert |r.hit| == |el.hit| + 1;
      assert Distinct(r.hit);
    }
  }

  /** A pair keeps the invariant of every electron and of the power. */
  lemma ApplyEventPreservesInv(sc: Scene, maxId: int, o: Outcome, ev: Event)
    requires SceneInv(sc, maxId) && OutcomeInv(o, maxId)
    ensures OutcomeInv(ApplyEvent(sc, o, ev), maxId)
  {
    if ev.0 in o.electrons {
      CollidePreservesInv(sc, maxId, o.electrons[ev.0], ev.1, o.power);
    } else if ev.1 in o.electrons {
      CollidePreservesInv(sc, maxId, o.electrons[ev.1], ev.0, o.power);
    }
  }

  /** A whole batch keeps the invariant of every electron and of the power. */
  lemma {:induction false} ApplyEventsPreservesInv(sc: Scene, maxId: int, o: Outcome, evs: seq<Event>)
    requires SceneInv(sc, maxId) && OutcomeInv(o, maxId)
    ensures OutcomeInv(ApplyEvents(sc, o, evs), maxId)
    decreases |evs|
  {
    if evs != [] {
      ApplyEventsPreservesInv(sc, maxId, o, evs[..|evs| - 1]);
      ApplyEventPreservesInv(sc, maxId, ApplyEvents(sc, o, evs[..|evs| - 1]), evs[|evs| - 1]);
    }
  }

  /** `b` is a later state of electron `a`: more collisions, a longer store, no more speed. */
  predicate Grew(a: Electron, b: Electron)
  {
    a.count <= b.count && a.hit <= b.hit && b.dir.speed <= a.dir.speed
  }

  /** One pair only advances the electrons it names. */
  lemma ApplyEventGrows(sc: Scene, maxId: int, o: Outcome, ev: Event)
    requires SceneInv(sc, maxId) && OutcomeInv(o, maxId)
    ensures forall e :: e in o.electrons ==> Grew(o.electrons[e], ApplyEvent(sc, o, ev).electrons[e])
  {
    var r := ApplyEvent(sc, o, ev);
    forall e | e in o.electrons
      ensures Grew(o.electrons[e], r.electrons[e])
    {
      assert o.electrons[e].dir.speed > 0.0;
    }
  }

  /**
   * Over a batch every electron's collision count and store only grow and
   * its speed factor only falls.
   */
  lemma {:induction false} ApplyEventsMonotone(sc: Scene, maxId: int, o: Outcome, evs: seq<Event>)
    requires SceneInv(sc, maxId) && OutcomeInv(o, maxId)
    ensures forall e :: e in o.electrons ==> Grew(o.electrons[e], ApplyEvents(sc, o, evs).electrons[e])
    decreases |evs|
  {
    if evs != [] {
      var prefix := evs[..|evs| - 1];
      var mid := ApplyEvents(sc, o, prefix);
      ApplyEventsMonotone(sc, maxId, o, prefix);
      ApplyEventsPreservesInv(sc, maxId, o, prefix);
      ApplyEventGrows(sc, maxId, mid, evs[|evs| - 1]);
    }
  }

  /**
   * An electron at speed 1.0 meets resistor 1 twice and then the LED: it
   * is attenuated once, to 0.8, and the LED power becomes 0.8.
   */
  lemma SeriesScenario()
    ensures
      var sc := Scene({}, {11}, map[10 := Resistor(1, -140.0, 0.0)]);
      var el := Electron(0.0, 126.0, 0, Direction(1.0, 0.0, 0.0, 0.0, 1.0), []);
      var r := ApplyEvents(sc, Outcome(map[7 := el], 0.0), [(7, 10), (10, 7), (7, 11)]);
      && r.electrons[7].dir.speed == 0.8
      && r.electrons[7].hit == [1]
      && r.power == 0.8
  {
    var sc := Scene({}, {11}, map[10 := Resistor(1, -140.0, 0.0)]);
    var el := Electron(0.0, 126.0, 0, Direction(1.0, 0.0, 0.0, 0.0, 1.0), []);
    var evs: seq<Event> := [(7, 10), (10, 7), (7, 11)];
    var o0 := Outcome(map[7 := el], 0.0);
    assert evs[..2][..1] == [(7, 10)] && [(7, 10)][..0] == [];
    var o1 := ApplyEvents(sc, o0, [(7, 10)]);
    assert o1.electrons[7].hit == [1] && o1.electrons[7].dir.speed == 0.8;
    var o2 := ApplyEvents(sc, o0, evs[..2]);
    assert o2.electrons[7].hit == [1] && o2.electrons[7].dir.speed == 0.8;
  }
}
