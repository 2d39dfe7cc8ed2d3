# Superhero energy and gadget state machine

A Dafny model of the hero classes of `superhero_class.py`: a `Superhero`
with an energy reserve (starting at 100) and an encapsulated power level, a
`FlyingHero` that can fly and land, and a `TechHero` with a bounded gadget
belt. `use_power` and `fly` pay a fixed energy cost behind a guard, and
otherwise refuse and change nothing. `set_power_level` and `add_gadget`
have a guard and change nothing on refusal. `rest` and `land` always
succeed, and `get_power_level` only reads.

The model has two modules:

- `HeroSpec` (`hero_spec.dfy`) states the machine on values. `HeroState`
  holds the fields the methods change (`energy`, `powerLevel`, `isFlying`,
  `gadgets`), and `Kind` records which class a hero was created as. There is
  one step function per state-changing method. Those whose message carries
  information return a `Step`: the new state and a datatype outcome in
  place of the message. `RestStep` and `LandStep` return only the new
  state; `get_power_level` changes nothing and has no step function. `Run` folds a
  sequence of calls, and the lemmas state what holds after every sequence.
  These lemmas cover the energy bounds, saturation under `rest`, the last
  accepted power level, and how the belt fills.
- `SuperheroClass` (`superhero_class.dfy`) is the imperative class. It has
  mutable fields and one named constructor per Python class. Each method
  updates the fields in place, and its contract ties the new `State()` to
  the step function applied to the old one. Each call thus follows one step,
  so a sequence of calls on an object follows `Run` (`RunSnoc` takes one
  step at a time), and the `HeroSpec` lemmas about `Run` describe it. Dafny
  classes here cannot inherit, so one class carries a constant `kind`.
  `UsePower` dispatches on that kind exactly as Python's method overriding
  does. The demonstration's loop body is `DemonstrateHero`, applied to each
  of the three heroes it builds.

The constructor stores its `power_level` argument unchecked
(`superhero_class.py:12`); only `set_power_level` checks the range. So
`Inv` says nothing about the power level, and `SetLevelStep` only keeps an
already in-range level in range.

## Model

| member | source | states |
|---|---|---|
| HeroSpec.Init | superhero_class.py:9-14 | a new hero has energy 100, the given power level unchecked, is not flying, has no gadgets, and satisfies `Inv` |
| HeroSpec.BaseUsePower | superhero_class.py:20-26 | succeeds exactly when energy >= 20; success lowers energy by exactly 20 and reports the remaining energy; refusal reports too tired and leaves the state unchanged |
| HeroSpec.FlyingUsePower | superhero_class.py:66-72 | the override has the same guard and the same new state as the base `use_power`, and reports an aerial attack instead |
| HeroSpec.TechUsePower | superhero_class.py:90-99 | an empty belt gives NoGadgets with the state unchanged, whatever the energy; it succeeds exactly when the belt is non-empty and energy >= 20; it deploys `gadgets[0]` and costs 20; it never changes the belt |
| HeroSpec.UsePowerStep | superhero_class.py:20-99 | dispatch: a success outcome belongs to the hero's own class, and only a tech hero reports NoGadgets; success costs exactly 20 and refusal changes nothing; `Inv` is preserved |
| HeroSpec.RestStep | superhero_class.py:28-31 | new energy is the minimum of 100 and energy + 30: it is at most both and equals one of them; it never lowers an in-range energy; nothing else changes |
| HeroSpec.FlyStep | superhero_class.py:52-59 | soars exactly when energy >= 15; soaring costs exactly 15, sets the flying flag and reports the flight speed; refusal changes nothing |
| HeroSpec.LandStep | superhero_class.py:61-64 | always clears the flying flag and changes nothing else, energy included |
| HeroSpec.SetLevelStep | superhero_class.py:37-42 | accepts exactly the levels in 0..100; an accepted level is stored; a rejected one leaves the stored level unchanged; nothing else changes; an in-range level stays in range |
| HeroSpec.AddGadgetStep | superhero_class.py:82-88 | appends the gadget at the end exactly when the belt holds fewer than `gadget_count`; a full belt is left unchanged; the belt never grows past `max(0, gadget_count)` |
| HeroSpec.Apply | superhero_class.py:20-99 | every call a hero's class has preserves `Inv`: energy in [0, 100], belt within capacity, only a flying hero in the air |
| HeroSpec.RunKeepsInv | superhero_class.py:20-99 | every sequence of calls preserves `Inv` |
| HeroSpec.EnergyAlwaysInRange | superhero_class.py:13-99 | from creation on, after any sequence of `use_power`, `fly`, `rest` and the other calls, energy is in [0, 100] and the belt within its capacity |
| HeroSpec.RestsSaturate | superhero_class.py:28-31 | n rests from an in-range energy give min(100, energy + 30n) and change nothing else |
| HeroSpec.RestIdempotentAtFull | superhero_class.py:28-31 | at energy 100, any number of rests leaves the hero unchanged |
| HeroSpec.PowerLevelIsLastAccepted | superhero_class.py:33-42 | after any sequence of calls, the stored power level is the last one `set_power_level` accepted, or the constructor's value if none was accepted |
| HeroSpec.OnlyAddGadgetChangesBelt | superhero_class.py:90-99 | a sequence of calls without `add_gadget` leaves the belt unchanged; in particular `use_power` never changes it |
| HeroSpec.AddsFillBelt | superhero_class.py:82-88 | adding gadgets one by one appends them in order while there is room and drops the rest; nothing but the belt changes |
| HeroSpec.UsesSpendEnergy | superhero_class.py:20-26 | n uses of the power with energy >= 20n, and a gadget for a tech hero, cost exactly 20n and change nothing else |
| HeroSpec.TechHeroRunsOut | superhero_class.py:77-99 | a new tech hero with three gadgets can use its power five times, down to energy 0; the sixth call reports too tired and changes nothing |
| SuperheroClass.Superhero.Base | superhero_class.py:9-14 | the `Superhero` constructor keeps the names, sets `is_active`, and builds the `Init` state with kind Plain |
| SuperheroClass.Superhero.FlyingHero | superhero_class.py:47-50 | the `FlyingHero` constructor keeps the names, sets `is_active`, builds the `Init` state and keeps the flight speed |
| SuperheroClass.Superhero.TechHero | superhero_class.py:77-80 | the `TechHero` constructor keeps the names, sets `is_active`, builds the `Init` state, with an empty belt, and keeps `gadget_count` |
| SuperheroClass.Superhero.UsePower | superhero_class.py:20-99 | in place, the new state and the outcome are those of `UsePowerStep`; energy drops by 20 exactly on success; the belt, power level and flying flag are untouched |
| SuperheroClass.Superhero.Rest | superhero_class.py:28-31 | in place, the new state is `RestStep` of the old one, and the returned energy is not lower than before and is at most 100 |
| SuperheroClass.Superhero.GetPowerLevel | superhero_class.py:33-35 | returns the stored level; by `PowerLevelIsLastAccepted`, this is the last accepted one |
| SuperheroClass.Superhero.SetPowerLevel | superhero_class.py:37-42 | in place, follows `SetLevelStep`; the level is accepted and stored exactly when it is in 0..100, otherwise it is left unchanged |
| SuperheroClass.Superhero.Fly | superhero_class.py:52-59 | in place, follows `FlyStep`; soars exactly when energy >= 15, which costs 15 and sets the flying flag; otherwise nothing changes |
| SuperheroClass.Superhero.Land | superhero_class.py:61-64 | in place, follows `LandStep`; the hero is not flying afterwards and energy is unchanged |
| SuperheroClass.Superhero.AddGadget | superhero_class.py:82-88 | in place, follows `AddGadgetStep`; appends at the end when there is room; a full belt is left unchanged |
| SuperheroClass.DemonstrateHero | superhero_class.py:118-131 | one pass of the demonstration loop on any hero: reports the stored power level; the outcome of `use_power` is `UsePowerStep`'s; a flying hero then flies and lands, the others do neither; the hero rests and the final state is the composition of those steps |
| SuperheroClass.DemonstrateSuperman | superhero_class.py:106-131 | the demonstration's Superman reports level 95, an aerial attack at energy 80, a flight at speed 500, and ends at energy 95 after landing and resting |
| SuperheroClass.DemonstrateBatman | superhero_class.py:107-131 | the demonstration's Batman with its three gadgets reports level 80, deploys "Batarang" at energy 80, holds the three gadgets in order, and rests back to 100 |
| SuperheroClass.DemonstrateWonderWoman | superhero_class.py:108-131 | the demonstration's Wonder Woman reports level 90, uses her power down to 80, and rests back to 100 |
| SuperheroClass.SupermanFlies | superhero_class.py:126-127 | scenario on the demonstration's Superman freshly built (line 106): flying reports speed 500 and takes energy from 100 to 85; after landing the hero is not flying and energy is still 85 |
| SuperheroClass.BatmanRunsOut | superhero_class.py:107-113 | scenario on the demonstration's Batman with its three gadgets, calling `use_power` six times: the fifth deploys the first gadget at energy 0; the sixth reports too tired with energy still 0 |

## Left out

- The returned messages are replaced by outcome datatypes. Their wording, emoji and interpolated names are not modelled. The three "too tired" messages of the three `use_power` overrides differ only in wording, so they share one outcome, `TooTired`. Each variant keeps its own success outcome.
- `introduce` only formats a string and is not modelled. The `name`, `real_name` and `is_active` fields are never changed after construction; they are constant fields of the class (`isActive` is set to true by every constructor). `flight_speed` is never changed either; it is part of `kind`.
- The `print` warning inside `set_power_level` is replaced by the `accepted` result of `SetPowerLevel`.
- `fly` and `land` exist only on `FlyingHero`, and `add_gadget` only on `TechHero`. Calling one on another class raises an AttributeError in Python. The model makes this a precondition on the kind instead.
- Python accepts any value for `power_level`, `flight_speed` and `gadget_count`. The model takes integers only; floats and other types are not modelled.
- The demonstration driver `demonstrate_assignment1` is modelled without its console output: `introduce` and the header lines are not printed, and the values it prints are returned instead. Its loop over the list of three heroes is unrolled into one method per hero (`DemonstrateSuperman`, `DemonstrateBatman`, `DemonstrateWonderWoman`), each running the loop body `DemonstrateHero`; the heroes share no state, so the order between them changes no result. The `isinstance` test becomes a test of `kind`.
- `assignment2_polymorphism.py` is not part of this model. Its methods only return strings built from constructor fields, and it has no state or guards.
- Python's class inheritance and `super().__init__` are not modelled as such. One class with a constant `kind` stands in for the three classes. The shared base behaviour (`rest` and the power-level accessors) is one method.
