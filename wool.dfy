/** Wool growth and shearing of one creature (the "wool" entity behaviour).
    Wool is never stored: it is recomputed from the hours elapsed since the last shearing,
    the creature's generation and the configuration. The only persisted value is the
    timestamp of the last shearing. */
module Wool {
  import opened Common

  /** The behaviour's configuration, resolved once from the entity type's attributes. */
  datatype WoolConfig = WoolConfig(
    hoursPerWoolUnit: real,
    hoursPerWoolUnitGenerationalReduction: real,
    hoursPerWoolUnitMaxReduction: real,
    maxGenBonus: int,
    generationalMaxWoolGrowthBonus: int,
    generationalScratchChanceReduction: real,
    minWool: int,            // attribute "minQuantity"
    maxWool: int,            // attribute "maxQuantity"
    shearsBonus: int,
    minGen: int,
    scratchChance: real)

  /** The attributes an entity type declares for the behaviour; `None` where a key is absent. */
  datatype WoolAttributes = WoolAttributes(
    hoursPerWoolUnit: Option<real>,
    hoursPerWoolUnitGenerationalReduction: Option<real>,
    hoursPerWoolUnitMaxReduction: Option<real>,
    maxGenBonus: Option<int>,
    generationalMaxWoolGrowthBonus: Option<int>,
    generationalScratchChanceReduction: Option<real>,
    minQuantity: Option<int>,
    maxQuantity: Option<int>,
    shearsBonus: Option<int>,
    minGen: Option<int>,
    scratchChance: Option<real>)

  const NoWoolAttributes: WoolAttributes :=
    WoolAttributes(None, None, None, None, None, None, None, None, None, None, None)

  /** The configuration used when the entity type declares none of the attributes. */
  const DefaultWoolConfig: WoolConfig :=
    WoolConfig(24.0, 0.5, 20.0, 8, 8, 0.05, 4, 12, 4, 3, 0.5)

  /** Each attribute as declared, or its default when absent. */
  function ResolveWoolConfig(a: WoolAttributes): (c: WoolConfig)
    ensures a == NoWoolAttributes ==> c == DefaultWoolConfig
    ensures c.hoursPerWoolUnit == a.hoursPerWoolUnit.GetOr(24.0)
    ensures c.hoursPerWoolUnitGenerationalReduction == a.hoursPerWoolUnitGenerationalReduction.GetOr(0.5)
    ensures c.hoursPerWoolUnitMaxReduction == a.hoursPerWoolUnitMaxReduction.GetOr(20.0)
    ensures c.maxGenBonus == a.maxGenBonus.GetOr(8)
    ensures c.generationalMaxWoolGrowthBonus == a.generationalMaxWoolGrowthBonus.GetOr(8)
    ensures c.generationalScratchChanceReduction == a.generationalScratchChanceReduction.GetOr(0.05)
    ensures c.minWool == a.minQuantity.GetOr(4)
    ensures c.maxWool == a.maxQuantity.GetOr(12)
    ensures c.shearsBonus == a.shearsBonus.GetOr(4)
    ensures c.minGen == a.minGen.GetOr(3)
    ensures c.scratchChance == a.scratchChance.GetOr(0.5)
  {
    WoolConfig(
      a.hoursPerWoolUnit.GetOr(24.0),
      a.hoursPerWoolUnitGenerationalReduction.GetOr(0.5),
      a.hoursPerWoolUnitMaxReduction.GetOr(20.0),
      a.maxGenBonus.GetOr(8),
      a.generationalMaxWoolGrowthBonus.GetOr(8),
      a.generationalScratchChanceReduction.GetOr(0.05),
      a.minQuantity.GetOr(4),
      a.maxQuantity.GetOr(12),
      a.shearsBonus.GetOr(4),
      a.minGen.GetOr(3),
      a.scratchChance.GetOr(0.5))
  }

  /** Hours needed to grow one unit of wool. The code subtracts the LARGER of the
      generational reduction and the reduction cap, so the result never exceeds
      `hoursPerWoolUnit - hoursPerWoolUnitMaxReduction`. */
  function HoursPerUnit(c: WoolConfig, generation: int): (r: real)
    ensures r <= c.hoursPerWoolUnit - c.hoursPerWoolUnitMaxReduction
    ensures r <= c.hoursPerWoolUnit - (generation - c.minGen) as real * c.hoursPerWoolUnitGenerationalReduction
    ensures r == c.hoursPerWoolUnit - c.hoursPerWoolUnitMaxReduction
         || r == c.hoursPerWoolUnit - (generation - c.minGen) as real * c.hoursPerWoolUnitGenerationalReduction
  {
    c.hoursPerWoolUnit
      - MaxReal((generation - c.minGen) as real * c.hoursPerWoolUnitGenerationalReduction,
                c.hoursPerWoolUnitMaxReduction)
  }

  /** Extra wool capacity earned by generation; capped above by `maxGenBonus`, not below by 0. */
  function GenerationalWoolBonus(c: WoolConfig, generation: int): (r: int)
    ensures r <= c.maxGenBonus
    ensures r <= (generation - c.minGen) * c.generationalMaxWoolGrowthBonus
    ensures r == c.maxGenBonus || r == (generation - c.minGen) * c.generationalMaxWoolGrowthBonus
  {
    MinInt((generation - c.minGen) * c.generationalMaxWoolGrowthBonus, c.maxGenBonus)
  }

  /** The most wool the creature can carry at its generation. */
  function MaxWoolCount(c: WoolConfig, generation: int): (r: int)
    ensures r <= c.maxWool + c.maxGenBonus
    ensures r - c.maxWool <= (generation - c.minGen) * c.generationalMaxWoolGrowthBonus
  {
    c.maxWool + GenerationalWoolBonus(c, generation)
  }

  /** Wool available after `growth` hours: 0 below `minWool` units, otherwise the grown
      amount clamped to `[minWool, MaxWoolCount]` and truncated. A zero `HoursPerUnit`
      is an IEEE division: positive growth gives +infinity, which passes the minimum test
      and is clamped to the cap; zero or negative growth gives NaN or -infinity, which fails it. */
  function WoolCount(c: WoolConfig, generation: int, growth: real): (r: int)
    ensures HoursPerUnit(c, generation) != 0.0 && growth / HoursPerUnit(c, generation) < c.minWool as real
            ==> r == 0
    ensures r == 0 || r <= MaxWoolCount(c, generation)
    ensures c.minWool <= MaxWoolCount(c, generation)
            ==> r == 0 || c.minWool <= r <= MaxWoolCount(c, generation)
  {
    var hpu := HoursPerUnit(c, generation);
    var cap := MaxWoolCount(c, generation);
    if hpu != 0.0 then
      var u := growth / hpu;
      if u >= c.minWool as real then
        var v := Clamp(u, c.minWool as real, cap as real);
        assert c.minWool <= cap ==> c.minWool <= Trunc(v) <= cap by {
          if c.minWool <= cap {
            TruncBetween(v, c.minWool, cap);
          }
        }
        Trunc(v)
      else 0
    else if growth > 0.0 then cap
    else 0
  }

  /** Wool obtained with shears: the plain count plus `shearsBonus`, or 0 when nothing has grown. */
  function WoolCountBonus(c: WoolConfig, generation: int, growth: real): (r: int)
    ensures WoolCount(c, generation, growth) <= 0 ==> r == 0
    ensures WoolCount(c, generation, growth) > 0 ==> r == WoolCount(c, generation, growth) + c.shearsBonus
    ensures c.shearsBonus >= 0 ==> (r > 0 <==> WoolCount(c, generation, growth) > 0)
    ensures c.shearsBonus >= 0 ==> r >= WoolCount(c, generation, growth)
  {
    var count := WoolCount(c, generation, growth);
    if count > 0 then count + c.shearsBonus else 0
  }

  /** Per-generation scratch chance, floored at 5%. */
  function ModifiedScratchChance(c: WoolConfig, generation: int): (r: real)
    ensures r >= 0.05
    ensures r >= c.scratchChance - c.generationalScratchChanceReduction * generation as real
    ensures r == 0.05 || r == c.scratchChance - c.generationalScratchChanceReduction * generation as real
  {
    MaxReal(0.05, c.scratchChance - c.generationalScratchChanceReduction * generation as real)
  }

  /** The threshold a shearing draw is compared with; never below 5% whatever the multiplier. */
  function ScratchThreshold(c: WoolConfig, generation: int, multiplier: real): (r: real)
    ensures r >= 0.05
    ensures r >= ModifiedScratchChance(c, generation) * multiplier
  {
    MaxReal(0.05, ModifiedScratchChance(c, generation) * multiplier)
  }

  /** The tool held by the shearer: knife, shears, anything else or an empty hand. */
  datatype Tool = Knife | Shears | OtherTool

  datatype Side = Server | Client

  /** The in-game error a client shows when shearing is refused. */
  datatype ShearMessage = NoMessage | TooWild | NotEnoughWool

  /** When a shearing attempt succeeds (on the server). */
  predicate Shearable(c: WoolConfig, alive: bool, side: Side, generation: int, growth: real, tool: Tool)
  {
    && alive
    && side == Server
    && WoolCount(c, generation, growth) > 0
    && generation >= c.minGen
    && (tool == Knife || tool == Shears)
  }

  /** The wool state of one creature: its configuration and the "lastShear" timestamp
      (total game hours) kept in its "wool" attribute tree. */
  class Shearing {
    const cfg: WoolConfig
    var lastShear: real

    /** `Initialize`: a fresh "wool" tree, whose missing "lastShear" reads as 0. */
    constructor(cfg: WoolConfig)
      ensures this.cfg == cfg && lastShear == 0.0
    {
      this.cfg := cfg;
      lastShear := 0.0;
    }

    /** Hours of growth since the last shearing. */
    function Growth(now: real): real
      reads this
    {
      now - lastShear
    }

    /** `init`, on load or spawn: takes the entity's "lastShearTime" attribute (0 when absent)
        and, on the server only, clamps it to the current time. */
    method Init(savedLastShearTime: Option<real>, side: Side, now: real)
      modifies this
      ensures side == Client ==> lastShear == savedLastShearTime.GetOr(0.0)
      ensures side == Server ==> lastShear == MinReal(savedLastShearTime.GetOr(0.0), now)
      ensures side == Server ==> Growth(now) >= 0.0
    {
      lastShear := savedLastShearTime.GetOr(0.0);
      if side == Client {
        return;
      }
      lastShear := MinReal(lastShear, now);
    }

    /** `CanShear`: only a living creature, on the server, with wool grown, of generation
        at least `minGen`, sheared with a knife or (with the bonus) shears. On the client it
        never succeeds and names the first reason that applies: generation, then wool. */
    method CanShear(alive: bool, side: Side, generation: int, now: real, tool: Tool)
      returns (ok: bool, bonus: bool, message: ShearMessage)
      ensures ok == Shearable(cfg, alive, side, generation, Growth(now), tool)
      ensures bonus <==> ok && tool == Shears
      ensures side == Client ==> !ok
      ensures message == TooWild <==> alive && side == Client && generation < cfg.minGen
      ensures message == NotEnoughWool
              <==> alive && side == Client && generation >= cfg.minGen && WoolCount(cfg, generation, Growth(now)) == 0
    {
      bonus := false;
      message := NoMessage;
      if !alive {
        return false, bonus, message;
      }
      var count := WoolCount(cfg, generation, Growth(now));
      if side == Server && count > 0 && generation >= cfg.minGen {
        match tool
        case Knife =>
          return true, bonus, message;
        case Shears =>
          bonus := true;
          return true, bonus, message;
        case OtherTool =>
      }
      if side == Client {
        if generation < cfg.minGen {
          message := TooWild;
          return false, bonus, message;
        } else if count == 0 {
          message := NotEnoughWool;
          return false, bonus, message;
        }
      }
      ok := false;
    }

    /** `ReceiveShearDamage`: the creature is injured when the draw falls below the
        threshold, so any draw below 5% injures it. */
    method ReceiveShearDamage(generation: int, multiplier: real, draw: real) returns (damaged: bool)
      ensures damaged <==> draw < ScratchThreshold(cfg, generation, multiplier)
      ensures draw < 0.05 ==> damaged
      ensures damaged ==> draw < 0.05 || draw < ModifiedScratchChance(cfg, generation) * multiplier
    {
      damaged := draw < MaxReal(0.05, ModifiedScratchChance(cfg, generation) * multiplier);
    }

    /** `DoShear`: yields the bonus count with shears and the plain count otherwise, rolls
        for a scratch, and restarts growth from now whatever the roll. */
    method DoShear(generation: int, now: real, bonused: bool, draw: real)
      returns (amount: int, damaged: bool)
      modifies this
      ensures amount == if bonused then WoolCountBonus(cfg, generation, old(Growth(now)))
                       else WoolCount(cfg, generation, old(Growth(now)))
      ensures damaged <==> draw < ScratchThreshold(cfg, generation, 1.0)
      ensures lastShear == now && Growth(now) == 0.0
    {
      amount := if bonused then WoolCountBonus(cfg, generation, Growth(now))
               else WoolCount(cfg, generation, Growth(now));
      damaged := ReceiveShearDamage(generation, 1.0, draw);
      lastShear := now;
    }

    /** `TryShear`: shears exactly when `CanShear` allows it; otherwise nothing changes. */
    method TryShear(alive: bool, side: Side, generation: int, now: real, tool: Tool, draw: real)
      returns (sheared: bool, amount: int, damaged: bool)
      modifies this
      ensures sheared == Shearable(cfg, alive, side, generation, now - old(lastShear), tool)
      ensures sheared ==> lastShear == now
      ensures sheared ==> amount == if tool == Shears then WoolCountBonus(cfg, generation, now - old(lastShear))
                                   else WoolCount(cfg, generation, now - old(lastShear))
      ensures sheared && cfg.shearsBonus >= 0 ==> amount >= 1
      ensures sheared ==> (damaged <==> draw < ScratchThreshold(cfg, generation, 1.0))
      ensures !sheared ==> lastShear == old(lastShear) && amount == 0 && !damaged
    {
      var ok, bonus, _ := CanShear(alive, side, generation, now, tool);
      if ok {
        amount, damaged := DoShear(generation, now, bonus, draw);
        return true, amount, damaged;
      }
      return false, 0, false;
    }
  }

  /** With a non-negative per-generation bonus, capacity never shrinks as generation grows. */
  lemma MaxWoolCountMonotone(c: WoolConfig, g1: int, g2: int)
    requires g1 <= g2
    requires c.generationalMaxWoolGrowthBonus >= 0
    ensures MaxWoolCount(c, g1) <= MaxWoolCount(c, g2)
  {
    var b := c.generationalMaxWoolGrowthBonus;
    assert (g2 - c.minGen) * b - (g1 - c.minGen) * b == (g2 - g1) * b;
    assert (g2 - g1) * b >= 0;
  }

  /** There is no floor at 0: below `minGen` a positive per-generation bonus turns into a penalty. */
  lemma GenerationalWoolBonusNegativeBelowMinGen(c: WoolConfig, generation: int)
    requires generation < c.minGen
    requires c.generationalMaxWoolGrowthBonus > 0
    ensures GenerationalWoolBonus(c, generation) < 0
    ensures MaxWoolCount(c, generation) < c.maxWool
  {
    var d := c.minGen - generation;
    assert d * c.generationalMaxWoolGrowthBonus > 0;
    assert (generation - c.minGen) * c.generationalMaxWoolGrowthBonus == -(d * c.generationalMaxWoolGrowthBonus);
  }

  /** In a sane configuration the wool count is the number of whole units grown, capped. */
  lemma WoolCountWholeUnits(c: WoolConfig, generation: int, growth: real)
    requires HoursPerUnit(c, generation) > 0.0
    requires 0 <= c.minWool <= MaxWoolCount(c, generation)
    requires growth / HoursPerUnit(c, generation) >= c.minWool as real
    ensures WoolCount(c, generation, growth)
            == MinInt((growth / HoursPerUnit(c, generation)).Floor, MaxWoolCount(c, generation))
  {
    var u := growth / HoursPerUnit(c, generation);
    var cap := MaxWoolCount(c, generation);
    TruncInt(cap);
    if u > cap as real {
      assert u.Floor >= cap;
    } else {
      assert Clamp(u, c.minWool as real, cap as real) == u;
      assert u.Floor <= cap;
    }
  }

  /** With the default attributes the cap on the reduction is what is always subtracted up to
      generation 43: four hours per unit, not the 24 minus a small generational reduction the
      field documentation describes. From generation 44 on the generational term takes over. */
  lemma DefaultHoursPerUnit(generation: int)
    ensures generation <= 43 ==> HoursPerUnit(DefaultWoolConfig, generation) == 4.0
    ensures generation > 43 ==> HoursPerUnit(DefaultWoolConfig, generation) == 24.0 - (generation - 3) as real * 0.5
  {
  }

  /** With the default attributes a creature of generation 52 or more never has wool to shear:
      its hours per unit are negative, so the grown ratio is never positive. */
  lemma DefaultHighGenerationGrowsNoWool(generation: int, growth: real)
    requires generation >= 52
    requires growth >= 0.0
    ensures WoolCount(DefaultWoolConfig, generation, growth) == 0
  {
    DefaultHoursPerUnit(generation);
    var hpu := HoursPerUnit(DefaultWoolConfig, generation);
    assert hpu < 0.0;
    var u := growth / hpu;
    assert u * hpu == growth;
    assert u <= 0.0;
  }

  /** With the default attributes, a generation-0 creature's capacity is negative
      (12 + (0 - 3) * 8), so once four units have grown the clamp returns that capacity:
      after 16 hours its wool count is -12. `Shearable` still refuses it. */
  lemma DefaultGeneration0NegativeWool()
    ensures MaxWoolCount(DefaultWoolConfig, 0) == -12
    ensures WoolCount(DefaultWoolConfig, 0, 16.0) == -12
    ensures forall alive, side, tool :: !Shearable(DefaultWoolConfig, alive, side, 0, 16.0, tool)
  {
    DefaultHoursPerUnit(0);
  }

  /** With the default attributes, generation 51 has zero hours per unit: any positive growth
      is an infinite ratio, so the creature carries its full capacity at once. */
  lemma DefaultGeneration51GrowsAtOnce(growth: real)
    requires growth > 0.0
    ensures HoursPerUnit(DefaultWoolConfig, 51) == 0.0
    ensures WoolCount(DefaultWoolConfig, 51, growth) == MaxWoolCount(DefaultWoolConfig, 51) == 20
  {
    DefaultHoursPerUnit(51);
  }
}
