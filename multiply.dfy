/** The reproduction state machine of one creature (the "multiplywithevolution" behaviour).
    A creature is idle or pregnant. An idle tick may start a pregnancy; a pregnant tick
    past the gestation period gives birth, commits the new state, and then resolves the
    offspring codes and spawns the litter. Random draws, the current day and the creatures
    the host finds nearby are inputs. */
module MultiplyWithEvolution {
  import opened Common
  import opened Reproduction

  /** An entity's "hunger" attribute tree, reduced to its float entries. */
  type HungerTree = map<string, real>

  /** `GetFloat(key, default)` on an attribute tree. */
  function GetFloat(tree: HungerTree, key: string, default: real): (r: real)
    ensures key in tree ==> r == tree[key]
    ensures key !in tree ==> r == default
  {
    if key in tree then tree[key] else default
  }

  /** The key the conception attempt reads satiation from, spelled as in the source. */
  const SatiationReadKey: string := "saExtensionturation"

  /** The key the hunger system keeps satiation under, and the key the attempt writes. */
  const SatiationKey: string := "saturation"

  /** A creature near the one attempting conception, as the partner search sees it. */
  datatype Neighbour = Neighbour(code: Code, doesEat: bool, hunger: Option<HungerTree>)

  /** Not food-deprived: the creature does not eat, or its hunger tree holds satiation of at
      least 1 (a missing tree fails the comparison). */
  predicate IsFed(e: Neighbour)
  {
    !e.doesEat || (e.hunger.Some? && GetFloat(e.hunger.value, SatiationKey, 0.0) >= 1.0)
  }

  /** The search predicate: scans the patterns in order and accepts on the first one the
      creature's code matches while it is fed. `wildCardMatch` is the host's pattern match. */
  function AcceptsPartner(patterns: seq<string>, e: Neighbour, wildCardMatch: (Code, string) -> bool): bool
    decreases |patterns|
  {
    && patterns != []
    && ((wildCardMatch(e.code, patterns[0]) && IsFed(e)) || AcceptsPartner(patterns[1..], e, wildCardMatch))
  }

  /** A creature is accepted exactly when it matches some required pattern and is fed. */
  lemma {:induction false} AcceptsPartnerIff(patterns: seq<string>, e: Neighbour, wildCardMatch: (Code, string) -> bool)
    ensures AcceptsPartner(patterns, e, wildCardMatch)
            <==> IsFed(e) && exists i :: 0 <= i < |patterns| && wildCardMatch(e.code, patterns[i])
    decreases |patterns|
  {
    if patterns != [] {
      AcceptsPartnerIff(patterns[1..], e, wildCardMatch);
      if exists i :: 0 <= i < |patterns| && wildCardMatch(e.code, patterns[i]) {
        var i :| 0 <= i < |patterns| && wildCardMatch(e.code, patterns[i]);
        if i > 0 {
          assert patterns[1..][i - 1] == patterns[i];
        }
      }
      if exists i :: 0 <= i < |patterns[1..]| && wildCardMatch(e.code, patterns[1..][i]) {
        var i :| 0 <= i < |patterns[1..]| && wildCardMatch(e.code, patterns[1..][i]);
        assert wildCardMatch(e.code, patterns[i + 1]);
      }
    }
  }

  /** The first creature of `nearby` the predicate accepts. */
  function FirstAccepted(patterns: seq<string>, nearby: seq<Neighbour>, wildCardMatch: (Code, string) -> bool)
    : (r: Option<nat>)
    ensures r.Some? ==> r.value < |nearby| && AcceptsPartner(patterns, nearby[r.value], wildCardMatch)
    ensures r.Some? ==> forall j :: 0 <= j < r.value ==> !AcceptsPartner(patterns, nearby[j], wildCardMatch)
    ensures r.None? ==> forall j :: 0 <= j < |nearby| ==> !AcceptsPartner(patterns, nearby[j], wildCardMatch)
    decreases |nearby|
  {
    if nearby == [] then None
    else if AcceptsPartner(patterns, nearby[0], wildCardMatch) then Some(0)
    else
      match FirstAccepted(patterns, nearby[1..], wildCardMatch)
      case None => None
      case Some(i) => Some(i + 1)
  }

  /** `GetRequiredEntityNearby`: no partner when no codes are required; otherwise the nearest
      accepted creature. `nearby` is what the host's range query returns, nearest first. */
  function GetRequiredEntityNearby(c: MultiplyConfig, nearby: seq<Neighbour>, wildCardMatch: (Code, string) -> bool)
    : (r: Option<nat>)
    ensures c.requiresNearbyEntityCodes == [] ==> r.None?
    ensures r.Some? ==> r.value < |nearby|
                        && AcceptsPartner(c.requiresNearbyEntityCodes, nearby[r.value], wildCardMatch)
                        && forall j :: 0 <= j < r.value
                             ==> !AcceptsPartner(c.requiresNearbyEntityCodes, nearby[j], wildCardMatch)
    ensures r.None? ==> forall j :: 0 <= j < |nearby|
                          ==> !AcceptsPartner(c.requiresNearbyEntityCodes, nearby[j], wildCardMatch)
  {
    if |c.requiresNearbyEntityCodes| == 0 then None
    else FirstAccepted(c.requiresNearbyEntityCodes, nearby, wildCardMatch)
  }

  /** How a conception attempt ends. */
  datatype Attempt = Refused | Botched | Conceived(partner: Option<nat>)

  /** The outcome of `TryGetPregnant`, given its inputs: the draw must not exceed 6%, the
      cooldown must be over, the hunger tree must exist, the satiation read must reach the
      portions needed, and a required partner must be found; then a draw below 20% botches
      the attempt. */
  function ConceptionAttempt(c: MultiplyConfig, cooldownUntil: real, hunger: Option<HungerTree>, now: real,
                             conceiveDraw: real, botchDraw: real,
                             nearby: seq<Neighbour>, wildCardMatch: (Code, string) -> bool): (a: Attempt)
    ensures !a.Refused? ==>
              && conceiveDraw <= 0.06
              && cooldownUntil <= now
              && hunger.Some?
              && GetFloat(hunger.value, SatiationReadKey, 0.0) >= c.portionsEatenForMultiply
              && (c.requiresNearbyEntityCodes != [] ==> GetRequiredEntityNearby(c, nearby, wildCardMatch).Some?)
    ensures && conceiveDraw <= 0.06
            && cooldownUntil <= now
            && hunger.Some?
            && GetFloat(hunger.value, SatiationReadKey, 0.0) >= c.portionsEatenForMultiply
            && (c.requiresNearbyEntityCodes != [] ==> GetRequiredEntityNearby(c, nearby, wildCardMatch).Some?)
            ==> !a.Refused?
    ensures a.Botched? <==> !a.Refused? && botchDraw < 0.2
    ensures a.Conceived? ==> botchDraw >= 0.2 && a.partner == GetRequiredEntityNearby(c, nearby, wildCardMatch)
    ensures a.Conceived? && a.partner.Some? ==>
              a.partner.value < |nearby| && AcceptsPartner(c.requiresNearbyEntityCodes, nearby[a.partner.value], wildCardMatch)
  {
    if conceiveDraw > 0.06 || cooldownUntil > now || hunger.None? then Refused
    else if GetFloat(hunger.value, SatiationReadKey, 0.0) < c.portionsEatenForMultiply then Refused
    else
      var partner := GetRequiredEntityNearby(c, nearby, wildCardMatch);
      if |c.requiresNearbyEntityCodes| > 0 && partner.None? then Refused
      else if botchDraw < 0.2 then Botched
      else Conceived(partner)
  }

  /** The actor's hunger tree after an attempt: unchanged when refused; otherwise the value
      read under the misspelled key, less 1 (botched) or less the portions (conceived), is
      written under "saturation". */
  function HungerAfter(a: Attempt, hunger: Option<HungerTree>, portions: real): (h: Option<HungerTree>)
    requires !a.Refused? ==> hunger.Some?
    ensures a.Refused? ==> h == hunger
    ensures a.Botched? ==> h.Some? && GetFloat(h.value, SatiationKey, 0.0) == GetFloat(hunger.value, SatiationReadKey, 0.0) - 1.0
    ensures a.Conceived? ==> h.Some? && GetFloat(h.value, SatiationKey, 0.0) == GetFloat(hunger.value, SatiationReadKey, 0.0) - portions
    ensures !a.Refused? ==> h.Some? && h.value.Keys == hunger.value.Keys + {SatiationKey}
                            && forall k :: k in hunger.value && k != SatiationKey ==> h.value[k] == hunger.value[k]
  {
    match a
    case Refused => hunger
    case Botched =>
      Some(hunger.value[SatiationKey := GetFloat(hunger.value, SatiationReadKey, 0.0) - 1.0])
    case Conceived(_) =>
      Some(hunger.value[SatiationKey := GetFloat(hunger.value, SatiationReadKey, 0.0) - portions])
  }

  /** The partner gives up one unit of satiation, never going below 0; a partner without a
      hunger tree is unchanged. */
  function PartnerAfterConception(e: Neighbour): (r: Neighbour)
    ensures r.code == e.code && r.doesEat == e.doesEat && r.hunger.Some? == e.hunger.Some?
    ensures e.hunger.Some? ==> GetFloat(r.hunger.value, SatiationKey, 0.0) >= 0.0
    ensures e.hunger.Some? ==> GetFloat(r.hunger.value, SatiationKey, 0.0) >= GetFloat(e.hunger.value, SatiationKey, 0.0) - 1.0
    ensures e.hunger.Some? ==> forall k :: k in e.hunger.value && k != SatiationKey
                                 ==> k in r.hunger.value && r.hunger.value[k] == e.hunger.value[k]
    ensures e.hunger.Some? ==> GetFloat(e.hunger.value, SatiationKey, 0.0) >= 1.0
                               ==> GetFloat(r.hunger.value, SatiationKey, 0.0) == GetFloat(e.hunger.value, SatiationKey, 0.0) - 1.0
    ensures e.hunger.Some? ==> GetFloat(e.hunger.value, SatiationKey, 0.0) <= 1.0
                               ==> GetFloat(r.hunger.value, SatiationKey, 0.0) == 0.0
    ensures e.hunger.Some? ==> r.hunger.value.Keys == e.hunger.value.Keys + {SatiationKey}
    ensures e.hunger.None? ==> r == e
  {
    match e.hunger
    case None => e
    case Some(tree) =>
      e.(hunger := Some(tree[SatiationKey := MaxReal(0.0, GetFloat(tree, SatiationKey, 0.0) - 1.0)]))
  }

  /** The nearby creatures after an attempt: only a conceiving partner changes. */
  function NeighboursAfter(a: Attempt, nearby: seq<Neighbour>): (r: seq<Neighbour>)
    requires a.Conceived? && a.partner.Some? ==> a.partner.value < |nearby|
    ensures |r| == |nearby|
    ensures forall j :: 0 <= j < |nearby| && !(a.Conceived? && a.partner == Some(j)) ==> r[j] == nearby[j]
    ensures a.Conceived? && a.partner.Some? ==> r[a.partner.value] == PartnerAfterConception(nearby[a.partner.value])
  {
    if a.Conceived? && a.partner.Some? then
      nearby[a.partner.value := PartnerAfterConception(nearby[a.partner.value])]
    else nearby
  }

  /** The random values one tick may consume, in the order the source draws them:
      the conception draw and the botch draw (idle), the litter size, the cooldown, the index
      of the child code, and the draws of the spawn loop's condition (birth). */
  datatype TickDraws = TickDraws(conceive: real, botch: real, quantity: real, cooldown: real,
                                 pick: nat, litter: nat -> real)

  ghost predicate ValidTickDraws(d: TickDraws)
  {
    && ValidDraw(d.conceive) && ValidDraw(d.botch)
    && ValidDraw(d.quantity) && ValidDraw(d.cooldown)
    && forall j: nat :: ValidDraw(d.litter(j))
  }

  /** The persisted reproduction state of one creature. */
  class Multiplier {
    const cfg: MultiplyConfig
    var isPregnant: bool
    var totalDaysPregnancyStart: real
    var totalDaysLastBirth: real
    var totalDaysCooldownUntil: real
    /** The creature's "hunger" tree, owned by the hunger system. */
    var hunger: Option<HungerTree>
    /** Never set by this behaviour. */
    var eatAnyway: bool

    /** `Initialize`, given the stored values: a missing "totalDaysLastBirth" reads (and, on the
        server, is written) as -9999. */
    constructor(cfg: MultiplyConfig, isPregnant: bool, pregnancyStart: real, lastBirth: Option<real>,
                cooldownUntil: real, hunger: Option<HungerTree>)
      ensures this.cfg == cfg && this.isPregnant == isPregnant && totalDaysPregnancyStart == pregnancyStart
      ensures totalDaysLastBirth == lastBirth.GetOr(-9999.0) && totalDaysCooldownUntil == cooldownUntil
      ensures this.hunger == hunger && !eatAnyway
    {
      this.cfg := cfg;
      this.isPregnant := isPregnant;
      totalDaysPregnancyStart := pregnancyStart;
      totalDaysLastBirth := lastBirth.GetOr(-9999.0);
      totalDaysCooldownUntil := cooldownUntil;
      this.hunger := hunger;
      eatAnyway := false;
    }

    /** The base behaviour's satiation reading: "saturation" in the hunger tree, 0 without one. */
    function GetSaturation(): real
      reads this
    {
      if hunger.None? then 0.0 else GetFloat(hunger.value, SatiationKey, 0.0)
    }

    /** `ShouldEat`: the creature looks for food while idle, short of the portions it needs,
        and out of cooldown (or always, with `eatAnyway`). */
    function ShouldEat(now: real): (r: bool)
      reads this
      ensures eatAnyway ==> r
      ensures !eatAnyway && isPregnant ==> !r
      ensures !eatAnyway && totalDaysCooldownUntil > now ==> !r
      ensures !eatAnyway && GetSaturation() >= cfg.portionsEatenForMultiply ==> !r
      ensures !isPregnant && GetSaturation() < cfg.portionsEatenForMultiply && totalDaysCooldownUntil <= now ==> r
    {
      eatAnyway || (!isPregnant && GetSaturation() < cfg.portionsEatenForMultiply && totalDaysCooldownUntil <= now)
    }

    /** The state every tick keeps: a pregnancy started at or before now, after the cooldown ended. */
    ghost predicate Consistent(now: real)
      reads this
    {
      isPregnant ==> totalDaysCooldownUntil <= totalDaysPregnancyStart <= now
    }

    /** `TryGetPregnant`: applies `ConceptionAttempt`'s outcome to the actor's hunger tree, the
        partner's hunger tree and the pregnancy fields. */
    method TryGetPregnant(now: real, conceiveDraw: real, botchDraw: real,
                          nearby: seq<Neighbour>, wildCardMatch: (Code, string) -> bool)
      returns (ok: bool, nearbyAfter: seq<Neighbour>)
      modifies this
      ensures var a := ConceptionAttempt(cfg, old(totalDaysCooldownUntil), old(hunger), now,
                                         conceiveDraw, botchDraw, nearby, wildCardMatch);
              && ok == a.Conceived?
              && hunger == HungerAfter(a, old(hunger), cfg.portionsEatenForMultiply)
              && nearbyAfter == NeighboursAfter(a, nearby)
              && isPregnant == (a.Conceived? || old(isPregnant))
              && totalDaysPregnancyStart == (if a.Conceived? then now else old(totalDaysPregnancyStart))
      ensures totalDaysLastBirth == old(totalDaysLastBirth) && totalDaysCooldownUntil == old(totalDaysCooldownUntil)
      ensures eatAnyway == old(eatAnyway)
      ensures ok ==> totalDaysCooldownUntil <= totalDaysPregnancyStart == now && Consistent(now)
      ensures ok && !eatAnyway ==> !ShouldEat(now)
    {
      nearbyAfter := nearby;
      if conceiveDraw > 0.06 {
        return false, nearbyAfter;
      }
      if totalDaysCooldownUntil > now {
        return false, nearbyAfter;
      }
      if hunger.None? {
        return false, nearbyAfter;
      }
      var tree := hunger.value;
      var saturation := GetFloat(tree, SatiationReadKey, 0.0);
      if saturation >= cfg.portionsEatenForMultiply {
        var partner: Option<nat> := None;
        if |cfg.requiresNearbyEntityCodes| > 0 {
          partner := GetRequiredEntityNearby(cfg, nearby, wildCardMatch);
          if partner.None? {
            return false, nearbyAfter;
          }
        }
        if botchDraw < 0.2 {
          hunger := Some(tree[SatiationKey := saturation - 1.0]);
          return false, nearbyAfter;
        }
        hunger := Some(tree[SatiationKey := saturation - cfg.portionsEatenForMultiply]);
        if partner.Some? {
          nearbyAfter := nearby[partner.value := PartnerAfterConception(nearby[partner.value])];
        }
        isPregnant := true;
        totalDaysPregnancyStart := now;
        return true, nearbyAfter;
      }
      return false, nearbyAfter;
    }

    /** `CheckMultiplyEvolve`, one tick. Nothing happens to a dead creature or without a
        calendar. An idle tick only attempts conception. A pregnant tick gives birth once
        strictly more than `pregnancyDays` have passed: the cleared pregnancy, the birth day and
        the new cooldown are committed first, and the offspring follow, none when the birth
        aborts. */
    method CheckMultiplyEvolve(alive: bool, calendar: Option<real>, generation: int, d: TickDraws,
                               nearby: seq<Neighbour>, wildCardMatch: (Code, string) -> bool)
      returns (children: seq<Child>, nearbyAfter: seq<Neighbour>)
      requires ValidTickDraws(d)
      modifies this
      ensures !alive || calendar.None? ==> unchanged(this) && children == [] && nearbyAfter == nearby
      ensures alive && calendar.Some? && !old(isPregnant) ==>
                var now := calendar.value;
                var a := ConceptionAttempt(cfg, old(totalDaysCooldownUntil), old(hunger), now,
                                           d.conceive, d.botch, nearby, wildCardMatch);
                && children == []
                && isPregnant == a.Conceived?
                && totalDaysPregnancyStart == (if a.Conceived? then now else old(totalDaysPregnancyStart))
                && hunger == HungerAfter(a, old(hunger), cfg.portionsEatenForMultiply)
                && nearbyAfter == NeighboursAfter(a, nearby)
                && totalDaysLastBirth == old(totalDaysLastBirth)
                && totalDaysCooldownUntil == old(totalDaysCooldownUntil)
      ensures alive && calendar.Some? && old(isPregnant)
              && calendar.value - old(totalDaysPregnancyStart) <= cfg.pregnancyDays
              ==> unchanged(this) && children == [] && nearbyAfter == nearby
      ensures alive && calendar.Some? && old(isPregnant)
              && calendar.value - old(totalDaysPregnancyStart) > cfg.pregnancyDays
              ==> var now := calendar.value;
                  && !isPregnant
                  && totalDaysLastBirth == now
                  && totalDaysCooldownUntil == now + CooldownDays(cfg, d.cooldown)
                  && totalDaysPregnancyStart == old(totalDaysPregnancyStart)
                  && hunger == old(hunger)
                  && nearbyAfter == nearby
                  && children == BirthChildren(cfg, generation, SpawnQuantity(cfg, d.quantity), d.pick, d.litter)
      ensures eatAnyway == old(eatAnyway)
      ensures calendar.Some? && old(Consistent(calendar.value)) ==> Consistent(calendar.value)
      ensures calendar.Some? && old(isPregnant) && !isPregnant && old(Consistent(calendar.value))
              && cfg.multiplyCooldownDaysMin >= 0.0 && cfg.multiplyCooldownDaysMax >= 0.0
              ==> totalDaysCooldownUntil >= old(totalDaysCooldownUntil)
    {
      children := [];
      nearbyAfter := nearby;
      if !alive {
        return;
      }
      if calendar.None? {
        return;
      }
      var daysNow := calendar.value;
      if !isPregnant {
        var ok;
        ok, nearbyAfter := TryGetPregnant(daysNow, d.conceive, d.botch, nearby, wildCardMatch);
        if ok {
          isPregnant := true;
          totalDaysPregnancyStart := daysNow;
        }
        return;
      }
      if daysNow - totalDaysPregnancyStart > cfg.pregnancyDays {
        var q := SpawnQuantity(cfg, d.quantity);
        totalDaysLastBirth := daysNow;
        totalDaysCooldownUntil := daysNow + CooldownDays(cfg, d.cooldown);
        isPregnant := false;
        var childCodes := BuildChildCodes(cfg, generation);
        if |cfg.spawnEntityCodes| < 1 && |cfg.spawnEvolvedEntityCodes| >= 1 {
          return;
        }
        if |childCodes| == 0 {
          return;
        }
        var code := childCodes[d.pick % |childCodes|];
        children := SpawnLitter(q, code, generation, d.litter);
      }
    }
  }

  /** Satiation is read from a key the hunger system does not write: a hunger tree without
      that key reads as 0, so with a positive portion requirement no attempt ever conceives. */
  lemma MisspelledKeyPreventsConception(c: MultiplyConfig, cooldownUntil: real, tree: HungerTree, now: real,
                                        conceiveDraw: real, botchDraw: real,
                                        nearby: seq<Neighbour>, wildCardMatch: (Code, string) -> bool)
    requires SatiationReadKey !in tree
    requires c.portionsEatenForMultiply > 0.0
    ensures ConceptionAttempt(c, cooldownUntil, Some(tree), now, conceiveDraw, botchDraw, nearby, wildCardMatch) == Refused
  {
  }

  /** A refused attempt changes no hunger tree. */
  lemma RefusedChangesNothing(hunger: Option<HungerTree>, portions: real, nearby: seq<Neighbour>)
    ensures HungerAfter(Refused, hunger, portions) == hunger
    ensures NeighboursAfter(Refused, nearby) == nearby
  {
  }
}
