# Circuit simulation core, modelled in Dafny

This project models the simulation rules of a small 2D circuit simulator.
Electrons run around a rectangular loop. Each collision with a corner wall
turns them to the next side of the loop. A resistor slows an electron by a
factor of 0.8 the first time that electron touches it. Touching the LED
copies the electron's speed factor into the LED power, and an on/off switch
stops both motion and brightness.

The source is one file of engine "systems" that update world state in place.
The model keeps that form:

- `Circuit.World` is a class holding the world's entity sets, electrons and
  resources (`power`, `onOff`, the tick counter `numElectrons`, the resistor
  counter `numResistors`).
- Its methods are the systems:
  - `HandleEvents` is the collision handler;
  - `SpawnElectron` is the timed spawner;
  - `PlaceResistor` is the click handler that places resistors;
  - `Toggle` is the switch;
  - `MoveElectrons` is the motion system.
- Each method is proved against a pure function of the inputs and the old
  state:
  - `Collisions.ApplyEvents` for a batch of collision-start pairs;
  - `Spawning.Spawns` and `Spawning.NewElectron` for a spawn tick;
  - `Placement.RailAt` and `Placement.SnapToRail` for a click;
  - `Switching.Flip` for a key edge;
  - `Motion.Moved` for a frame.
- The properties of the simulation are lemmas and contracts about those
  functions, plus the class invariant `WorldInv`. The invariant says:
  - walls, the LED, resistors and electrons are distinct entities;
  - resistor ids are unique and run from 1 to `numResistors`;
  - every resistor lies on a rail;
  - every electron's heading is the one-hot heading of its phase;
  - every electron's store of visited resistors has no repeats, and its
    speed factor is 0.8 to the power of the store's size;
  - the LED power is in [0, 1] and the switch is 0 or 1;
  - exactly one electron exists per tick that spawned one.

Modules: `Wrappers` (Option), `Heading` (the `Direction` component and the
heading chain), `Collisions` (the collision handler as a pure step),
`Spawning`, `Placement`, `Switching`, `Motion`, and `Circuit` (the world
class).

Points of the code that the model keeps as written:

- Flag 1 of `Direction` moves an electron along -y, which is down in the
  engine's y-up world, so the flags are named `left`, `down`, `right`, `up`.
- The collision count rises only on contact with a wall that is neither a
  resistor nor the LED (src/main.rs:250-256). Resistor contacts never change
  the count.
- The spawn cap is the constant 35 (src/main.rs:170). The sideways offset is
  `offset * 0.01 * counter`, where `offset` is an integer in -10..9.
- The LED power is overwritten only when it differs from the speed factor.
  With real numbers this means that after any LED contact the power equals
  the speed factor, and the contract says exactly that.

## Model

| member | source | states |
|---|---|---|
| `Heading.RustRem4` | src/main.rs:262-277 | Rust's truncating `% 4` is zero exactly when Dafny's Euclidean `% 4` is, and agrees with it on non-negative counts |
| `Heading.Phase` | src/main.rs:262-282 | the heading table: phase k raises flag k, lowers the other three, and keeps the speed factor |
| `Heading.Reorient` | src/main.rs:262-282 | for every count, negative ones included, the four-branch chain yields exactly the heading of phase `count % 4`. Some branch always fires, and the speed factor is untouched |
| `Heading.ReorientAdvances` | src/main.rs:254-282 | one more wall collision moves the heading to the next phase, and phase 3 wraps to phase 0 |
| `Collisions.Damping` | src/main.rs:243-247 | the speed factor after n distinct resistors, 0.8^n from the initial 1.0 of src/main.rs:177, is in (0, 1] |
| `Collisions.Collide` | src/main.rs:240-282 | one contact: the position is unchanged. The count rises by 1 exactly on a wall that is neither resistor nor LED. A resistor not yet in the store multiplies the speed by 0.8 and is appended, otherwise speed and store are unchanged. The power becomes the new speed on an LED contact and is kept otherwise. The heading is the phase of the new count |
| `Collisions.ApplyEvent` | src/main.rs:231-238 | the first entity of the pair that is an electron takes `Collide` with the other entity, and the power becomes `Collide`'s power. In a pair of two electrons the second is untouched. A pair naming no live electron changes nothing. No electron appears or disappears, and electrons the pair does not name are untouched. The power changes only if the pair names an LED |
| `Collisions.ApplyEventOrderFree` | src/main.rs:232-238 | when exactly one entity of a pair is an electron, the order of the pair does not matter |
| `Collisions.ApplyEventWallContact` | src/main.rs:232-256 | an electron meeting a plain wall, in either order of the pair, counts exactly one more collision, and its speed, its store and the power are unchanged |
| `Collisions.ApplyEventCount` | src/main.rs:232-256 | one pair raises an electron's count by one exactly when that electron is the one the pair updates and it met a plain wall. Otherwise the count is unchanged |
| `Collisions.ApplyEventsCount` | src/main.rs:231-256 | after a batch, each electron's count is its old count plus the number of pairs in which it met a plain wall |
| `Collisions.ApplyEvents` | src/main.rs:231-284 | a batch of pairs, handled in order, keeps the set of electrons |
| `Collisions.CollidePreservesInv` | src/main.rs:243-282 | one contact keeps the electron's invariant. The count stays non-negative and the heading is one-hot at `count % 4`. The store stays free of repeats with ids of placed resistors, and the speed stays 0.8 to the power of the store size. After an LED contact the power is in (0, 1] |
| `Collisions.ApplyEventPreservesInv` | src/main.rs:231-284 | one pair keeps every electron's invariant and keeps the power in [0, 1] |
| `Collisions.ApplyEventsPreservesInv` | src/main.rs:231-284 | a whole batch keeps every electron's invariant and the power in [0, 1] |
| `Collisions.ApplyEventGrows` | src/main.rs:243-256 | one pair never lowers a collision count, never removes a stored id and never raises a speed factor |
| `Collisions.ApplyEventsMonotone` | src/main.rs:231-284 | over a batch every collision count and store only grow and every speed factor only falls |
| `Collisions.SeriesScenario` | src/main.rs:243-261 | an electron at speed 1.0 touches resistor 1 twice and then the LED. It is attenuated once, to 0.8, stores id 1 once, and the power becomes 0.8 |
| `Spawning.NewElectron` | src/main.rs:171-185 | a new electron has count 0, heading left at speed 1.0, an empty store and y = 126. Its x offset is at most 0.1 times the tick counter in magnitude, and it satisfies the electron invariant |
| `Spawning.SpawnedOver` | src/main.rs:170-187 | a run of n spawn ticks from counter 0 creates at most n electrons and at most 35 |
| `Spawning.SpawnedOverAllOn` | src/main.rs:170-187 | with the switch on at every tick, n ticks create exactly min(n, 35) electrons |
| `Spawning.SpawnedOverAllOff` | src/main.rs:170-187 | with the switch off at every tick, no electron is created |
| `Placement.RailAt` | src/main.rs:302-336 | a rail is chosen exactly when the click guard (the disjunction of the three open bands) holds. The left band wins, then the right band, then the bottom band only if x is in neither side band |
| `Placement.SnapToRail` | src/main.rs:308-350 | a left-rail resistor lands at x = -140 and a right-rail one at x = 140, both keeping the click's y. A bottom-rail resistor lands at y = -126, keeping the click's x. A snapped point stays on the rail the click selected |
| `Placement.SnapIdempotent` | src/main.rs:308-350 | a click on a snapped position chooses the same rail and snaps to the same position |
| `Switching.Flip` | src/main.rs:409-413 | a press flips 1 to 0 and 0 to 1, no press leaves the state unchanged, and the state stays in {0, 1} |
| `Switching.Label` | src/main.rs:390-408 | state 1 shows "On", state 0 shows "Off", and any other state shows no label |
| `Switching.SwitchAfterParity` | src/main.rs:409-413 | over any run of frames the switch ends flipped exactly when the number of press edges is odd, one flip per press edge |
| `Motion.Delta` | src/main.rs:195-203 | with the switch off the displacement is zero. Otherwise dx = 30·dt·speed·(flag2 − flag0) and dy = 30·dt·speed·(flag3 − flag1) |
| `Motion.DeltaAlongPhase` | src/main.rs:195-203 | with the switch on, an electron in phase 0, 1, 2, 3 moves only left, down, right, up respectively, by 30·dt·speed |
| `Motion.Moved` | src/main.rs:195-204 | a frame moves an electron's position by `Delta` of its heading and changes nothing else. With the switch off it changes nothing at all |
| `Motion.MovedAlongPhase` | src/main.rs:195-204 | with the switch on, dt > 0 and a positive speed, an electron in phase 0, 1, 2, 3 moves strictly left, down, right, up and keeps its other coordinate |
| `Motion.Lightness` | src/main.rs:369-373 | the LED lightness is 0.9 times the power with the switch on and zero with it off. It lies in [0, 0.9] while the power is in [0, 1] and the switch is 0 or 1 |
| `Motion.DimmerPastResistor` | src/main.rs:369-373 | with the switch on, an electron that passed one more resistor makes the LED strictly dimmer, and the lightness stays positive |
| `Circuit.SameElectronsKeepInv` | src/main.rs:231-284 | replacing the electrons and power by ones with the same entities and their invariants keeps the world invariant |
| `Circuit.MovedKeepsInv` | src/main.rs:190-205 | moving every electron keeps the world invariant, and with the switch off nothing moves |
| `Circuit.PlacedKeepsInv` | src/main.rs:307-350 | adding a resistor on a rail with the next id and a fresh entity keeps the world invariant |
| `Circuit.PlacedSceneInv` | src/main.rs:307-350 | the new id, one above the counter, keeps resistor ids unique and within 1..numResistors |
| `Circuit.SpawnKeepsInv` | src/main.rs:170-187 | a spawn tick keeps the world invariant whether or not it creates an electron |
| `Circuit.World.constructor` | src/main.rs:105-160 | the world starts with power 0.0, switch 1, both counters 0, no electrons and no resistors, one LED and four walls, and satisfies the invariant |
| `Circuit.World.PopulationBounded` | src/main.rs:170-187 | there are never more electrons than spawn ticks, and never more than 35 |
| `Circuit.World.HandleEvents` | src/main.rs:207-285 | the collision handler changes only the electrons and the power, exactly as `ApplyEvents` says, and keeps the world invariant |
| `Circuit.World.ReadEvents` | src/main.rs:231-284 | the loop over the frame's pairs computes `ApplyEvents` of the old electrons and power |
| `Circuit.World.Touch` | src/main.rs:240-282 | the loop body's in-place updates of count, direction, store and power compute `Collide` |
| `Circuit.World.SpawnElectron` | src/main.rs:163-188 | the tick counter rises by exactly 1. A new electron with a fresh entity is added exactly when the counter was below 35 and the switch is on, otherwise the electrons are unchanged. The invariant is kept |
| `Circuit.World.PlaceResistor` | src/main.rs:287-354 | a left click inside a band adds exactly one resistor, snapped to its rail, with id equal to the new counter. Otherwise, including when no cursor position is available, nothing changes. The invariant is kept |
| `Circuit.World.Toggle` | src/main.rs:379-414 | the label returned is that of the state before the toggle, and the new state is `Flip` of the old one |
| `Circuit.World.MoveElectrons` | src/main.rs:190-205 | every electron moves by `Delta` of its heading and speed, nothing else changes, and with the switch off no electron moves |
| `Circuit.World.MoveAll` | src/main.rs:195-204 | the loop over all electrons replaces each by its `Moved` self |
| `Circuit.World.Shift` | src/main.rs:196-203 | the four in-place additions to x and y add up to `Delta` |
| `Circuit.World.LedLightness` | src/main.rs:356-377 | the LED lightness is 0.9 times the power while the switch is on and zero when it is off, and lies in [0, 0.9] |

## Left out

- App and plugin wiring, the window, the FPS overlay and the timer run conditions are not modelled. They are engine scheduling. `SpawnElectron` is one timer tick and `MoveElectrons` one frame.
- Rendering is not modelled: images, sprites, meshes, materials, the text entities of the switch, and the LED's despawn and respawn each refresh. Only the lightness value `0.9 · power · onOff` is kept.
- Collision detection by the physics engine and the geometry of the sensors are not modelled. Collision-start pairs are an input sequence, and wall, LED and resistor membership are given sets. Wall and LED positions are not kept.
- The camera's screen-to-world conversion and its `unwrap` panic (src/main.rs:298-300) are not modelled. The world point is an input, `None` when no cursor position is available.
- Randomness is not modelled: the spawn offset is a parameter in -10..9.
- Deferred commands are not modelled: spawned entities appear at once rather than a frame later.
- Real numbers stand for f32. The model has no rounding and no NaN, so "differs from the power" is `!=`.
- Counters are unbounded integers. The i32 counters `NumCollisions`, `NumOfElectrons` and `NumResistors` would overflow after about 2^31 steps: a panic in a debug build, a wrap-around in a release build. The same holds for `numcollisions.0 - 1` and the like (src/main.rs:267-277) near `i32::MIN`. The model does not capture either.
- The `ResistorId(0)` placeholder entity is omitted. It has no collider, so it never takes part in a collision.
- The sprite entity spawned beside each resistor is not allocated in the model, so entity numbers differ from the engine's.
- The `println!` debug lines are not modelled.
