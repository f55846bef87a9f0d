/**
 * The simulation world: the entities and resources the systems read and
 * update in place, and one method per system.
 */
module Circuit {
  import opened Wrappers
  import opened Heading
  import opened Collisions
  import opened Spawning
  import opened Placement
  import opened Switching
  import opened Motion

  /**
   * What the world keeps between systems: distinct kinds of entities, all
   * allocated, resistors on rails with ids 1..numResistors, every electron's
   * invariant, a switch in {0, 1}, and one electron per spawning tick.
   */
  ghost predicate WorldInv(sc: Scene, o: Outcome, onOff: int, numElectrons: int, numResistors: int,
                           nextEntity: Entity, spawnTicks: seq<int>)
  {
    && SceneInv(sc, numResistors)
    && o.electrons.Keys !! sc.walls && o.electrons.Keys !! sc.leds && o.electrons.Keys !! sc.resistors.Keys
    && (forall e :: e in sc.walls ==> e < nextEntity)
    && (forall e :: e in sc.leds ==> e < nextEntity)
    && (forall e :: e in sc.resistors ==> e < nextEntity)
    && (forall e :: e in o.electrons ==> e < nextEntity)
    && |sc.resistors| == numResistors
    && (forall e :: e in sc.resistors ==> RailAt(sc.resistors[e].x, sc.resistors[e].y).Some?)
    && OutcomeInv(o, numResistors)
    && (onOff == 0 || onOff == 1)
    && numElectrons == |spawnTicks|
    && |o.electrons| == SpawnedOver(spawnTicks)
  }

  /** Replacing the electrons and power by ones with the same entities and their invariants keeps the world's. */
  lemma SameElectronsKeepInv(sc: Scene, o: Outcome, o': Outcome, onOff: int, numElectrons: int,
                             numResistors: int, nextEntity: Entity, spawnTicks: seq<int>)
    requires WorldInv(sc, o, onOff, numElectrons, numResistors, nextEntity, spawnTicks)
    requires o'.electrons.Keys == o.electrons.Keys && OutcomeInv(o', numResistors)
    ensures WorldInv(sc, o', onOff, numElectrons, numResistors, nextEntity, spawnTicks)
  {
    assert |o'.electrons| == |o.electrons| by {
      assert |o'.electrons.Keys| == |o.electrons.Keys|;
    }
  }

  /** Moving every electron keeps the world's invariant, and moves nothing while the switch is off. */
  lemma MovedKeepsInv(sc: Scene, before: map<Entity, Electron>, after: map<Entity, Electron>, power: real,
                      dt: real, onOff: int, numElectrons: int, numResistors: int, nextEntity: Entity,
                      spawnTicks: seq<int>)
    requires WorldInv(sc, Outcome(before, power), onOff, numElectrons, numResistors, nextEntity, spawnTicks)
    requires after.Keys == before.Keys
    requires forall e :: e in after ==> after[e] == Moved(before[e], dt, onOff)
    ensures WorldInv(sc, Outcome(after, power), onOff, numElectrons, numResistors, nextEntity, spawnTicks)
    ensures onOff == 0 ==> after == before
  {
    forall e | e in after
      ensures ElectronInv(after[e], numResistors)
    {
      assert after[e] == Moved(before[e], dt, onOff);
    }
    SameElectronsKeepInv(sc, Outcome(before, power), Outcome(after, power), onOff, numElectrons,
                         numResistors, nextEntity, spawnTicks);
  }

  /**
   * A resistor on a rail, with the next id and a fresh entity, keeps the
   * world's invariant; in particular the new id differs from every earlier one.
   */
  lemma PlacedKeepsInv(sc: Scene, o: Outcome, onOff: int, numElectrons: int, numResistors: int,
                       nextEntity: Entity, spawnTicks: seq<int>, x: real, y: real)
    requires WorldInv(sc, o, onOff, numElectrons, numResistors, nextEntity, spawnTicks)
    requires RailAt(x, y).Some?
    ensures nextEntity !in sc.resistors
    ensures WorldInv(Scene(sc.walls, sc.leds, sc.resistors[nextEntity := Resistor(numResistors + 1, x, y)]), o,
                     onOff, numElectrons, numResistors + 1, nextEntity + 1, spawnTicks)
  {
    var rs := sc.resistors[nextEntity := Resistor(numResistors + 1, x, y)];
    assert nextEntity !in sc.resistors && nextEntity !in sc.walls && nextEntity !in sc.leds;
    PlacedSceneInv(sc, numResistors, nextEntity, x, y);
    assert OutcomeInv(o, numResistors + 1) by {
      forall e | e in o.electrons
        ensures ElectronInv(o.electrons[e], numResistors + 1)
      {
        assert ElectronInv(o.electrons[e], numResistors);
      }
    }
    assert |rs| == numResistors + 1;
    assert forall e :: e in rs ==> RailAt(rs[e].x, rs[e].y).Some?;
  }

  /** A resistor with the next id keeps resistor ids unique and within range. */
  lemma PlacedSceneInv(sc: Scene, numResistors: int, nextEntity: Entity, x: real, y: real)
    requires SceneInv(sc, numResistors) && numResistors >= 0
    requires nextEntity !in sc.resistors && nextEntity !in sc.walls && nextEntity !in sc.leds
    ensures SceneInv(Scene(sc.walls, sc.leds, sc.resistors[nextEntity := Resistor(numResistors + 1, x, y)]),
                     numResistors + 1)
  {
    var rs := sc.resistors[nextEntity := Resistor(numResistors + 1, x, y)];
    forall r | r in rs
      ensures 1 <= rs[r].id <= numResistors + 1
      ensures r != nextEntity ==> rs[r].id <= numResistors
    {
      if r != nextEntity {
        assert rs[r] == sc.resistors[r];
      }
    }
  }

  /** A tick, spawning or not, keeps the world's invariant. */
  lemma SpawnKeepsInv(sc: Scene, o: Outcome, onOff: int, numElectrons: int, numResistors: int,
                      nextEntity: Entity, spawnTicks: seq<int>, offset: int)
    requires WorldInv(sc, o, onOff, numElectrons, numResistors, nextEntity, spawnTicks)
    requires -10 <= offset < 10
    ensures nextEntity !in o.electrons
    ensures Spawns(numElectrons, onOff) ==>
              WorldInv(sc, o.(electrons := o.electrons[nextEntity := NewElectron(offset, numElectrons)]),
                       onOff, numElectrons + 1, numResistors, nextEntity + 1, spawnTicks + [onOff])
    ensures !Spawns(numElectrons, onOff) ==>
              WorldInv(sc, o, onOff, numElectrons + 1, numResistors, nextEntity, spawnTicks + [onOff])
  {
    assert (spawnTicks + [onOff])[..|spawnTicks|] == spawnTicks;
  }

  class World {
    /** The four corner sensors of the loop. */
    var walls: set<Entity>
    /** The LED entities that collisions can reach. */
    var leds: set<Entity>
    var resistors: map<Entity, Resistor>
    var electrons: map<Entity, Electron>
    /** `PowerOfLed`. */
    var power: real
    /** `OnOrOff`: 1 for on, 0 for off. */
    var onOff: int
    /** `NumOfElectrons`: a counter of spawn ticks, not of live electrons. */
    var numElectrons: int
    /** `NumResistors`: the last resistor id handed out. */
    var numResistors: int
    /** The engine's entity allocator: every entity so far is below it. */
    var nextEntity: Entity
    /** The switch state seen at each spawn tick so far. */
    ghost var spawnTicks: seq<int>

    function Obstacles(): Scene
      reads this
    {
      Scene(walls, leds, resistors)
    }

    ghost predicate Valid()
      reads this
    {
      WorldInv(Obstacles(), Outcome(electrons, power), onOff, numElectrons, numResistors, nextEntity, spawnTicks)
    }

    /** Start-up: the initial resources, the LED and the four corner walls. */
    constructor ()
      ensures Valid()
      ensures power == 0.0 && onOff == 1 && numElectrons == 0 && numResistors == 0
      ensures electrons == map[] && resistors == map[]
      ensures leds == {0} && walls == {1, 2, 3, 4}
    {
      leds, walls := {0}, {1, 2, 3, 4};
      resistors, electrons := map[], map[];
      power, onOff := 0.0, 1;
      numElectrons, numResistors := 0, 0;
      nextEntity := 5;
      spawnTicks := [];
    }

    /** No more electrons exist than spawn ticks have passed, and never more than the cap. */
    lemma PopulationBounded()
      requires Valid()
      ensures |electrons| <= numElectrons && |electrons| <= Cap
    {
    }

    /**
     * The collision handler: every collision-start pair of the frame, in
     * order. Only the electrons and the LED power change, exactly as the
     * pure step `ApplyEvents` says.
     */
    method HandleEvents(events: seq<Event>)
      requires Valid()
      modifies this`electrons, this`power
      ensures Valid()
      ensures Outcome(electrons, power) == ApplyEvents(Obstacles(), Outcome(old(electrons), old(power)), events)
    {
      ghost var start := Outcome(electrons, power);
      ReadEvents(events);
      ApplyEventsPreservesInv(Obstacles(), numResistors, start, events);
      SameElectronsKeepInv(Obstacles(), start, Outcome(electrons, power), onOff, numElectrons,
                           numResistors, nextEntity, spawnTicks);
    }

    /** The handler's loop over the frame's collision-start pairs, in the order reported. */
    method ReadEvents(events: seq<Event>)
      modifies this`electrons, this`power
      ensures Outcome(electrons, power) == ApplyEvents(Obstacles(), Outcome(old(electrons), old(power)), events)
    {
      ghost var start := Outcome(electrons, power);
      ghost var sc := Obstacles();
      var i := 0;
      while i < |events|
        invariant 0 <= i <= |events|
        invariant sc == Obstacles()
        invariant Outcome(electrons, power) == ApplyEvents(sc, start, events[..i])
      {
        ghost var before := Outcome(electrons, power);
        var (e1, e2) := events[i];
        if e1 in electrons {
          Touch(e1, e2);
        } else if e2 in electrons {
          Touch(e2, e1);
        }
        assert Outcome(electrons, power) == ApplyEvent(sc, before, events[i]);
        ApplyEventsSnoc(sc, start, events, i);
        i := i + 1;
      }
      assert events[..|events|] == events;
    }

    /**
     * One contact of the electron `electron` with the entity `other`, as the
     * handler's loop body performs it on the electron's components and the
     * LED power.
     */
    method Touch(electron: Entity, other: Entity)
      requires electron in electrons
      modifies this`electrons, this`power
      ensures var (e, p) := Collide(Obstacles(), old(electrons)[electron], other, old(power));
              electrons == old(electrons)[electron := e] && power == p
    {
      var el := electrons[electron];
      var count, dir, hit := el.count, el.dir, el.hit;
      if other in resistors {
        var id := resistors[other].id;
        if id !in hit {
          dir := dir.(speed := dir.speed * Attenuation);
          hit := hit + [id];
        }
      }
      if other !in resistors && other !in leds && other in walls {
        count := count + 1;
      }
      if other in leds {
        if dir.speed < power || dir.speed > power {
          power := dir.speed;
        }
      }
      dir := Reorient(count, dir);
      electrons := electrons[electron := el.(count := count, dir := dir, hit := hit)];
    }

    /**
     * One spawn tick: an electron is created when the counter is below the
     * cap and the switch is on; the counter rises by one either way.
     */
    method SpawnElectron(offset: int)
      requires Valid()
      requires -10 <= offset < 10
      modifies this`electrons, this`numElectrons, this`nextEntity, this`spawnTicks
      ensures Valid()
      ensures numElectrons == old(numElectrons) + 1
      ensures if Spawns(old(numElectrons), onOff) then
                && old(nextEntity) !in old(electrons)
                && electrons == old(electrons)[old(nextEntity) := NewElectron(offset, old(numElectrons))]
              else electrons == old(electrons)
    {
      SpawnKeepsInv(Obstacles(), Outcome(electrons, power), onOff, numElectrons, numResistors,
                    nextEntity, spawnTicks, offset);
      if numElectrons < Cap && onOff == 1 {
        electrons := electrons[nextEntity := NewElectron(offset, numElectrons)];
        nextEntity := nextEntity + 1;
      }
      spawnTicks := spawnTicks + [onOff];
      numElectrons := numElectrons + 1;
    }

    /**
     * Resistor placement: a left click at a world point inside one of the
     * rail bands creates one resistor, snapped to that rail, with the next
     * id; anything else changes nothing.
     */
    method PlaceResistor(cursor: Option<(real, real)>, clicked: bool)
      requires Valid()
      modifies this`resistors, this`numResistors, this`nextEntity
      ensures Valid()
      ensures if cursor.Some? && clicked && RailAt(cursor.value.0, cursor.value.1).Some? then
                var p := SnapToRail(RailAt(cursor.value.0, cursor.value.1).value, cursor.value.0, cursor.value.1);
                && numResistors == old(numResistors) + 1
                && old(nextEntity) !in old(resistors)
                && resistors == old(resistors)[old(nextEntity) := Resistor(numResistors, p.0, p.1)]
              else numResistors == old(numResistors) && resistors == old(resistors)
    {
      if cursor.Some? {
        var (x, y) := cursor.value;
        if clicked && ((x > -145.0 && x < -135.0) || (x < 145.0 && x > 135.0) || (y > -131.0 && y < -121.0)) {
          var p := SnapToRail(RailAt(x, y).value, x, y);
          PlacedKeepsInv(Obstacles(), Outcome(electrons, power), onOff, numElectrons, numResistors,
                         nextEntity, spawnTicks, p.0, p.1);
          numResistors := numResistors + 1;
          resistors := resistors[nextEntity := Resistor(numResistors, p.0, p.1)];
          nextEntity := nextEntity + 1;
          assert Obstacles() == Scene(walls, leds, resistors);
        }
      }
    }

    /**
     * The switch system: the label for the current state, then a flip on a
     * Space press edge.
     */
    method Toggle(pressed: bool) returns (caption: Option<string>)
      requires Valid()
      modifies this`onOff
      ensures Valid()
      ensures caption == Label(old(onOff)) && caption.Some?
      ensures onOff == Flip(old(onOff), pressed)
    {
      caption := Label(onOff);
      if onOff == 1 && pressed {
        onOff := 0;
      } else if onOff == 0 && pressed {
        onOff := 1;
      }
    }

    /**
     * Motion for one frame of `dt` seconds: every electron moves by its
     * heading, speed factor and the switch; with the switch off none moves.
     */
    method MoveElectrons(dt: real)
      requires Valid()
      modifies this`electrons
      ensures Valid()
      ensures electrons.Keys == old(electrons).Keys
      ensures forall e :: e in electrons ==> electrons[e] == Moved(old(electrons)[e], dt, onOff)
      ensures onOff == 0 ==> electrons == old(electrons)
    {
      ghost var before := electrons;
      MoveAll(dt);
      MovedKeepsInv(Obstacles(), before, electrons, power, dt, onOff, numElectrons,
                    numResistors, nextEntity, spawnTicks);
    }

    /** The motion system's loop over every electron. */
    method MoveAll(dt: real)
      modifies this`electrons
      ensures electrons.Keys == old(electrons).Keys
      ensures forall e :: e in electrons ==> electrons[e] == Moved(old(electrons)[e], dt, onOff)
    {
      ghost var before := electrons;
      var todo := electrons.Keys;
      while todo != {}
        invariant todo <= before.Keys
        invariant electrons.Keys == before.Keys
        invariant forall e :: e in electrons && e !in todo ==> electrons[e] == Moved(before[e], dt, onOff)
        invariant forall e :: e in todo ==> electrons[e] == before[e]
        decreases todo
      {
        var e :| e in todo;
        Shift(e, dt);
        todo := todo - {e};
      }
    }

    /** The loop body of the motion system: one electron's translation, flag by flag. */
    method Shift(e: Entity, dt: real)
      requires e in electrons
      modifies this`electrons
      ensures electrons == old(electrons)[e := Moved(old(electrons)[e], dt, onOff)]
    {
      var el := electrons[e];
      var on := onOff as real;
      var x, y := el.x, el.y;
      x := x + -BaseSpeed * dt * el.dir.left * el.dir.speed * on;
      y := y + -BaseSpeed * dt * el.dir.down * el.dir.speed * on;
      x := x + BaseSpeed * dt * el.dir.right * el.dir.speed * on;
      y := y + BaseSpeed * dt * el.dir.up * el.dir.speed * on;
      assert x == el.x + Delta(dt, el.dir, onOff).0 && y == el.y + Delta(dt, el.dir, onOff).1;
      electrons := electrons[e := el.(x := x, y := y)];
    }

    /** The LED lightness the refresh system draws: zero whenever the switch is off. */
    function LedLightness(): (r: real)
      reads this
      requires Valid()
      ensures 0.0 <= r <= MaxLightness
      ensures onOff == 0 ==> r == 0.0
      ensures onOff == 1 ==> r == MaxLightness * power
    {
      Lightness(power, onOff)
    }
  }
}
