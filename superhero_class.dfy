/** The three hero classes as one Dafny class whose `kind` records which of
    Superhero, FlyingHero or TechHero it was created as. The methods update
    the fields in place and each is proved to follow one step function of
    HeroSpec, so a sequence of calls on an object follows `Run` (see
    `HeroSpec.RunSnoc`) and the lemmas about `Run` describe it. */
module SuperheroClass {
  import opened HeroSpec

  class Superhero {
    const name: string
    const realName: string
    /** Set once by every constructor and never changed or read. */
    const isActive: bool
    /** The class the hero was created as, with `flight_speed` or
        `gadget_count`. Never changes. */
    const kind: Kind

    var energy: int
    /** Only read and written through GetPowerLevel and SetPowerLevel. */
    var powerLevel: int
    /** Only ever true on a FlyingHero. */
    var isFlying: bool
    /** Only ever non-empty on a TechHero. */
    var gadgets: seq<string>

    /** The fields the methods change, as a value. */
    ghost function State(): HeroState
      reads this
    {
      HeroState(energy, powerLevel, isFlying, gadgets)
    }

    ghost predicate Valid()
      reads this
    {
      Inv(kind, State())
    }

    /** `Superhero(name, real_name, power_level=50)`. The power level is
        stored unchecked. */
    constructor Base(name: string, realName: string, powerLevel: int := 50)
      ensures Valid()
      ensures this.name == name && this.realName == realName && isActive && kind == Plain
      ensures State() == Init(Plain, powerLevel)
    {
      this.name := name;
      this.realName := realName;
      this.isActive := true;
      this.kind := Plain;
      this.powerLevel := powerLevel;
      this.energy := MaxEnergy;
      this.isFlying := false;
      this.gadgets := [];
    }

    /** `FlyingHero(name, real_name, power_level=50, flight_speed=100)`. */
    constructor FlyingHero(name: string, realName: string, powerLevel: int := 50, flightSpeed: int := 100)
      ensures Valid()
      ensures this.name == name && this.realName == realName && isActive && kind == Flying(flightSpeed)
      ensures State() == Init(Flying(flightSpeed), powerLevel)
    {
      this.name := name;
      this.realName := realName;
      this.isActive := true;
      this.kind := Flying(flightSpeed);
      this.powerLevel := powerLevel;
      this.energy := MaxEnergy;
      this.isFlying := false;
      this.gadgets := [];
    }

    /** `TechHero(name, real_name, power_level=50, gadget_count=5)`. */
    constructor TechHero(name: string, realName: string, powerLevel: int := 50, gadgetCount: int := 5)
      ensures Valid()
      ensures this.name == name && this.realName == realName && isActive && kind == Tech(gadgetCount)
      ensures State() == Init(Tech(gadgetCount), powerLevel)
    {
      this.name := name;
      this.realName := realName;
      this.isActive := true;
      this.kind := Tech(gadgetCount);
      this.powerLevel := powerLevel;
      this.energy := MaxEnergy;
      this.isFlying := false;
      this.gadgets := [];
    }

    /** `use_power`, dispatched on the class the hero was created as. */
    method UsePower() returns (o: PowerOutcome)
      requires Valid()
      modifies this
      ensures Valid()
      ensures Step(State(), o) == UsePowerStep(kind, old(State()))
      ensures o.Succeeded() ==> energy == old(energy) - PowerCost
      ensures !o.Succeeded() ==> energy == old(energy)
      ensures gadgets == old(gadgets) && powerLevel == old(powerLevel) && isFlying == old(isFlying)
    {
      match kind
      case Plain =>
        if energy >= PowerCost {
          energy := energy - PowerCost;
          o := PowerUsed(energy);
        } else {
          o := TooTired;
        }
      case Flying(_) =>
        if energy >= PowerCost {
          energy := energy - PowerCost;
          o := AerialAttack(energy);
        } else {
          o := TooTired;
        }
      case Tech(_) =>
        if energy >= PowerCost && gadgets != [] {
          energy := energy - PowerCost;
          o := Deployed(gadgets[0], energy);
        } else if gadgets == [] {
          o := NoGadgets;
        } else {
          o := TooTired;
        }
    }

    /** `rest`: returns the energy after resting. */
    method Rest() returns (e: int)
      requires Valid()
      modifies this
      ensures Valid()
      ensures State() == RestStep(old(State()))
      ensures e == energy && old(energy) <= e <= MaxEnergy
    {
      energy := Min(MaxEnergy, energy + RestGain);
      e := energy;
    }

    /** `get_power_level`. */
    method GetPowerLevel() returns (level: int)
      ensures level == State().powerLevel
    {
      level := powerLevel;
    }

    /** `set_power_level`: `accepted` is false exactly when the Python
        method prints its out-of-range warning. */
    method SetPowerLevel(level: int) returns (accepted: bool)
      requires Valid()
      modifies this
      ensures Valid()
      ensures Step(State(), accepted) == SetLevelStep(old(State()), level)
      ensures accepted <==> MinLevel <= level <= MaxLevel
      ensures powerLevel == if accepted then level else old(powerLevel)
    {
      if MinLevel <= level <= MaxLevel {
        powerLevel := level;
        accepted := true;
      } else {
        accepted := false;
      }
    }

    /** `FlyingHero.fly`. */
    method Fly() returns (o: FlyOutcome)
      requires Valid() && kind.Flying?
      modifies this
      ensures Valid()
      ensures Step(State(), o) == FlyStep(kind.flightSpeed, old(State()))
      ensures o.Soared? <==> old(energy) >= FlightCost
      ensures o.Soared? ==> energy == old(energy) - FlightCost && isFlying
      ensures o.TooTiredToFly? ==> State() == old(State())
    {
      if energy >= FlightCost {
        energy := energy - FlightCost;
        isFlying := true;
        o := Soared(kind.flightSpeed);
      } else {
        o := TooTiredToFly;
      }
    }

    /** `FlyingHero.land`. */
    method Land()
      requires Valid() && kind.Flying?
      modifies this
      ensures Valid()
      ensures State() == LandStep(old(State()))
      ensures !isFlying && energy == old(energy)
    {
      isFlying := false;
    }

    /** `TechHero.add_gadget`. */
    method AddGadget(gadget: string) returns (o: GadgetOutcome)
      requires Valid() && kind.Tech?
      modifies this
      ensures Valid()
      ensures Step(State(), o) == AddGadgetStep(kind, old(State()), gadget)
      ensures o.Added? ==> gadgets == old(gadgets) + [gadget]
      ensures o.BeltFull? ==> gadgets == old(gadgets) && |gadgets| >= kind.gadgetCount
    {
      if |gadgets| < kind.gadgetCount {
        gadgets := gadgets + [gadget];
        o := Added(gadget);
      } else {
        o := BeltFull;
      }
    }
  }

  /** One pass of the demonstration's loop on `hero`: report the power
      level, use the power, fly and land when the hero is a flying hero, and
      rest; `e` is the energy the rest reports. */
  method DemonstrateHero(hero: Superhero) returns (level: int, power: PowerOutcome, flight: Option<FlyOutcome>, e: int)
    requires hero.Valid()
    modifies hero
    ensures hero.Valid()
    ensures level == old(hero.powerLevel)
    ensures var used := UsePowerStep(hero.kind, old(hero.State()));
            power == used.out &&
            if hero.kind.Flying? then
              var flown := FlyStep(hero.kind.flightSpeed, used.next);
              flight == Some(flown.out) && hero.State() == RestStep(LandStep(flown.next))
            else
              flight == None && hero.State() == RestStep(used.next)
    ensures e == hero.energy
  {
    level := hero.GetPowerLevel();
    power := hero.UsePower();
    if hero.kind.Flying? {
      var o := hero.Fly();
      hero.Land();
      flight := Some(o);
    } else {
      flight := None;
    }
    e := hero.Rest();
  }

  /** The demonstration's Superman, `FlyingHero("Superman", "Clark Kent", 95,
      500)`, through one pass of the loop. */
  method DemonstrateSuperman() returns (level: int, power: PowerOutcome, flight: Option<FlyOutcome>, e: int)
    ensures level == 95 && power == AerialAttack(80) && flight == Some(Soared(500)) && e == 95
  {
    var superman := new Superhero.FlyingHero("Superman", "Clark Kent", 95, 500);
    level, power, flight, e := DemonstrateHero(superman);
  }

  /** The demonstration's Batman, `TechHero("Batman", "Bruce Wayne", 80, 10)`
      with its three gadgets added, through one pass of the loop. */
  method DemonstrateBatman() returns (level: int, power: PowerOutcome, gadgets: seq<string>, e: int)
    ensures level == 80 && power == Deployed("Batarang", 80) && e == 100
    ensures gadgets == ["Batarang", "Grappling Hook", "Smoke Bomb"]
  {
    var batman := new Superhero.TechHero("Batman", "Bruce Wayne", 80, 10);
    var _ := batman.AddGadget("Batarang");
    var _ := batman.AddGadget("Grappling Hook");
    var _ := batman.AddGadget("Smoke Bomb");
    var flight;
    level, power, flight, e := DemonstrateHero(batman);
    gadgets := batman.gadgets;
  }

  /** The demonstration's Wonder Woman, `Superhero("Wonder Woman", "Diana
      Prince", 90)`, through one pass of the loop. */
  method DemonstrateWonderWoman() returns (level: int, power: PowerOutcome, e: int)
    ensures level == 90 && power == PowerUsed(80) && e == 100
  {
    var wonderWoman := new Superhero.Base("Wonder Woman", "Diana Prince", 90);
    var flight;
    level, power, flight, e := DemonstrateHero(wonderWoman);
  }

  /** A scenario on the demonstration's Superman, called freshly built:
      flying costs 15 of the initial 100 energy and reports the flight speed
      500; landing afterwards puts the hero on the ground and keeps the energy
      flying left. */
  method SupermanFlies() returns (o: FlyOutcome, flying: bool, e: int)
    ensures o == Soared(500) && !flying && e == 85
  {
    var superman := new Superhero.FlyingHero("Superman", "Clark Kent", 95, 500);
    o := superman.Fly();
    superman.Land();
    flying := superman.isFlying;
    e := superman.energy;
  }

  /** A scenario on the demonstration's Batman with its three gadgets: five
      uses of the power deploy the first gadget and bring energy from 100 down
      to 0; the sixth reports the hero too tired and leaves energy at 0. */
  method BatmanRunsOut() returns (fifth: PowerOutcome, sixth: PowerOutcome, e: int)
    ensures fifth == Deployed("Batarang", 0)
    ensures sixth == TooTired && e == 0
  {
    var batman := new Superhero.TechHero("Batman", "Bruce Wayne", 80, 10);
    var _ := batman.AddGadget("Batarang");
    var _ := batman.AddGadget("Grappling Hook");
    var _ := batman.AddGadget("Smoke Bomb");
    assert batman.gadgets == ["Batarang", "Grappling Hook", "Smoke Bomb"];
    var _ := batman.UsePower();
    var _ := batman.UsePower();
    var _ := batman.UsePower();
    var _ := batman.UsePower();
    fifth := batman.UsePower();
    sixth := batman.UsePower();
    e := batman.energy;
  }
}
