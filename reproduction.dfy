/** The pure parts of a birth in the "multiplywithevolution" behaviour: its configuration,
    which offspring codes a birth may choose from (evolutionary branching by generation
    thresholds), and how many offspring a litter of fractional size holds. */
module Reproduction {
  import opened Common

  /** An entity code, opaque to the model. */
  type Code = string

  /** The behaviour's configuration. The last three fields belong to the base multiply
      behaviour, which is not part of this model; they are given as constants. */
  datatype MultiplyConfig = MultiplyConfig(
    pregnancyDays: real,
    spawnEntityCodes: seq<Code>,
    spawnEvolvedEntityCodes: seq<Code>,
    evolutionGenerationThresholds: seq<int>,
    requiresNearbyEntityCode: string,
    requiresNearbyEntityCodes: seq<string>,
    requiresNearbyEntityRange: real,
    exclusiveEvolution: bool,
    spawnQuantityMin: real,
    spawnQuantityMax: real,
    portionsEatenForMultiply: real,
    multiplyCooldownDaysMin: real,
    multiplyCooldownDaysMax: real)

  /** The attributes an entity type declares for the behaviour; `None` where a key is absent. */
  datatype MultiplyAttributes = MultiplyAttributes(
    pregnancyDays: Option<real>,
    spawnEntityCodes: Option<seq<Code>>,
    spawnEvolvedEntityCodes: Option<seq<Code>>,
    evolutionGenerationThresholds: Option<seq<int>>,
    requiresNearbyEntityCode: Option<string>,
    requiresNearbyEntityCodes: Option<seq<string>>,
    requiresNearbyEntityRange: Option<real>,
    exclusiveEvolution: Option<bool>,
    spawnQuantityMin: Option<real>,
    spawnQuantityMax: Option<real>)

  const NoMultiplyAttributes: MultiplyAttributes :=
    MultiplyAttributes(None, None, None, None, None, None, None, None, None, None)

  /** The configuration of an entity type that declares none of the attributes. */
  function DefaultMultiplyConfig(portions: real, cooldownMin: real, cooldownMax: real): MultiplyConfig
  {
    MultiplyConfig(3.0, [], [], [], "", [], 5.0, true, 1.0, 2.0, portions, cooldownMin, cooldownMax)
  }

  /** The config getters: each attribute as declared, or its default when absent. */
  function ResolveMultiplyConfig(a: MultiplyAttributes, portions: real, cooldownMin: real, cooldownMax: real)
    : (c: MultiplyConfig)
    ensures a == NoMultiplyAttributes ==> c == DefaultMultiplyConfig(portions, cooldownMin, cooldownMax)
    ensures c.pregnancyDays == a.pregnancyDays.GetOr(3.0)
    ensures c.spawnEntityCodes == a.spawnEntityCodes.GetOr([])
    ensures c.spawnEvolvedEntityCodes == a.spawnEvolvedEntityCodes.GetOr([])
    ensures c.evolutionGenerationThresholds == a.evolutionGenerationThresholds.GetOr([])
    ensures c.requiresNearbyEntityCode == a.requiresNearbyEntityCode.GetOr("")
    ensures c.requiresNearbyEntityCodes == a.requiresNearbyEntityCodes.GetOr([])
    ensures c.requiresNearbyEntityRange == a.requiresNearbyEntityRange.GetOr(5.0)
    ensures c.exclusiveEvolution == a.exclusiveEvolution.GetOr(true)
    ensures c.spawnQuantityMin == a.spawnQuantityMin.GetOr(1.0)
    ensures c.spawnQuantityMax == a.spawnQuantityMax.GetOr(2.0)
    ensures c.portionsEatenForMultiply == portions
    ensures c.multiplyCooldownDaysMin == cooldownMin && c.multiplyCooldownDaysMax == cooldownMax
  {
    MultiplyConfig(
      a.pregnancyDays.GetOr(3.0),
      a.spawnEntityCodes.GetOr([]),
      a.spawnEvolvedEntityCodes.GetOr([]),
      a.evolutionGenerationThresholds.GetOr([]),
      a.requiresNearbyEntityCode.GetOr(""),
      a.requiresNearbyEntityCodes.GetOr([]),
      a.requiresNearbyEntityRange.GetOr(5.0),
      a.exclusiveEvolution.GetOr(true),
      a.spawnQuantityMin.GetOr(1.0),
      a.spawnQuantityMax.GetOr(2.0),
      portions, cooldownMin, cooldownMax)
  }

  // ---------------------------------------------------------------------------
  // Offspring-code resolution
  // ---------------------------------------------------------------------------

  /** The evolved codes whose own threshold `generation` reaches, in index order. */
  function Qualifying(evolved: seq<Code>, thresholds: seq<int>, generation: int): (r: seq<Code>)
    requires |evolved| == |thresholds|
    ensures |r| <= |evolved|
    decreases |evolved|
  {
    if evolved == [] then []
    else
      var n := |evolved| - 1;
      Qualifying(evolved[..n], thresholds[..n], generation)
        + (if generation >= thresholds[n] then [evolved[n]] else [])
  }

  /** A code qualifies exactly when it stands at an index whose threshold is reached. */
  lemma {:induction false} QualifyingMembership(evolved: seq<Code>, thresholds: seq<int>, generation: int, x: Code)
    requires |evolved| == |thresholds|
    ensures x in Qualifying(evolved, thresholds, generation)
            <==> exists i :: 0 <= i < |evolved| && generation >= thresholds[i] && evolved[i] == x
    decreases |evolved|
  {
    if evolved != [] {
      var n := |evolved| - 1;
      QualifyingMembership(evolved[..n], thresholds[..n], generation, x);
      if x in Qualifying(evolved, thresholds, generation) {
        if x !in Qualifying(evolved[..n], thresholds[..n], generation) {
          assert generation >= thresholds[n] && evolved[n] == x;
        }
      }
      if exists i :: 0 <= i < |evolved| && generation >= thresholds[i] && evolved[i] == x {
        var i :| 0 <= i < |evolved| && generation >= thresholds[i] && evolved[i] == x;
        if i < n {
          assert evolved[..n][i] == x && thresholds[..n][i] == thresholds[i];
        }
      }
    }
  }

  /** Qualifying distributes over concatenation, so it keeps the codes in index order. */
  lemma {:induction false} QualifyingAppend(e1: seq<Code>, t1: seq<int>, e2: seq<Code>, t2: seq<int>, generation: int)
    requires |e1| == |t1| && |e2| == |t2|
    ensures Qualifying(e1 + e2, t1 + t2, generation)
            == Qualifying(e1, t1, generation) + Qualifying(e2, t2, generation)
    decreases |e2|
  {
    if e2 == [] {
      assert e1 + e2 == e1 && t1 + t2 == t1;
    } else {
      var n := |e2| - 1;
      var e, t := e1 + e2, t1 + t2;
      assert e[..|e| - 1] == e1 + e2[..n];
      assert t[..|t| - 1] == t1 + t2[..n];
      QualifyingAppend(e1, t1, e2[..n], t2[..n], generation);
    }
  }

  /** When every threshold is reached, every evolved code qualifies, in its original order. */
  lemma {:induction false} QualifyingAll(evolved: seq<Code>, thresholds: seq<int>, generation: int)
    requires |evolved| == |thresholds|
    requires forall i :: 0 <= i < |thresholds| ==> generation >= thresholds[i]
    ensures Qualifying(evolved, thresholds, generation) == evolved
    decreases |evolved|
  {
    if evolved != [] {
      var n := |evolved| - 1;
      QualifyingAll(evolved[..n], thresholds[..n], generation);
      assert evolved[..n] + [evolved[n]] == evolved;
    }
  }

  /** Branch 1 applies: there are thresholds, exactly one per evolved code. */
  predicate PerCodeThresholds(c: MultiplyConfig)
  {
    |c.evolutionGenerationThresholds| > 0
    && |c.evolutionGenerationThresholds| == |c.spawnEvolvedEntityCodes|
  }

  /** Branch 2 applies: branch 1 does not, there is a single threshold, and it is reached. */
  predicate SingleThresholdReached(c: MultiplyConfig, generation: int)
  {
    && !PerCodeThresholds(c)
    && |c.evolutionGenerationThresholds| == 1
    && generation >= c.evolutionGenerationThresholds[0]
  }

  /** The candidate offspring codes of a birth at `generation`.
      Branch 1: the qualifying evolved codes, or the base codes when none qualify, followed
      by the base codes unless evolution is exclusive. Branch 2: the evolved codes followed by
      the base codes, whatever `exclusiveEvolution` says. Otherwise: the base codes. */
  function ChildCodes(c: MultiplyConfig, generation: int): (r: seq<Code>)
    ensures forall x :: x in r ==> x in c.spawnEntityCodes || x in c.spawnEvolvedEntityCodes
  {
    var base := c.spawnEntityCodes;
    var evolved := c.spawnEvolvedEntityCodes;
    var thresholds := c.evolutionGenerationThresholds;
    if PerCodeThresholds(c) then
      var q := Qualifying(evolved, thresholds, generation);
      assert forall x :: x in q ==> x in evolved by {
        forall x | x in q ensures x in evolved {
          QualifyingMembership(evolved, thresholds, generation, x);
        }
      }
      var chosen := if q == [] then base else q;
      if c.exclusiveEvolution then chosen else chosen + base
    else if |thresholds| == 1 && generation >= thresholds[0] then
      evolved + base
    else
      base
  }

  /** `CheckMultiplyEvolve`'s construction of the candidate list: a loop over the evolved
      codes in branch 1, then appends of whole lists. */
  method BuildChildCodes(c: MultiplyConfig, generation: int) returns (childCodes: seq<Code>)
    ensures childCodes == ChildCodes(c, generation)
  {
    var base := c.spawnEntityCodes;
    var evolved := c.spawnEvolvedEntityCodes;
    var thresholds := c.evolutionGenerationThresholds;
    childCodes := [];
    if |thresholds| > 0 && |thresholds| == |evolved| {
      for i := 0 to |evolved|
        invariant childCodes == Qualifying(evolved[..i], thresholds[..i], generation)
      {
        assert evolved[..i + 1][..i] == evolved[..i];
        assert thresholds[..i + 1][..i] == thresholds[..i];
        if generation >= thresholds[i] {
          childCodes := childCodes + [evolved[i]];
        }
      }
      assert evolved[..|evolved|] == evolved && thresholds[..|thresholds|] == thresholds;
      if |childCodes| == 0 {
        childCodes := childCodes + base;
      }
      if !c.exclusiveEvolution {
        childCodes := childCodes + base;
      }
    } else if |thresholds| == 1 && generation >= thresholds[0] {
      childCodes := childCodes + evolved;
      // The exclusiveEvolution test in the source guards only a log line: base codes always follow.
      childCodes := childCodes + base;
    } else {
      childCodes := childCodes + base;
    }
  }

  /** Branch 1 membership: a qualifying evolved code, or a base code when no evolved code
      qualifies or evolution is not exclusive. */
  lemma PerCodeThresholdsMembership(c: MultiplyConfig, generation: int, x: Code)
    requires PerCodeThresholds(c)
    ensures x in ChildCodes(c, generation)
            <==> (exists i :: 0 <= i < |c.spawnEvolvedEntityCodes|
                              && generation >= c.evolutionGenerationThresholds[i]
                              && c.spawnEvolvedEntityCodes[i] == x)
                 || (x in c.spawnEntityCodes
                     && (!c.exclusiveEvolution
                         || forall i :: 0 <= i < |c.evolutionGenerationThresholds|
                                        ==> generation < c.evolutionGenerationThresholds[i]))
  {
    var evolved, thresholds := c.spawnEvolvedEntityCodes, c.evolutionGenerationThresholds;
    QualifyingMembership(evolved, thresholds, generation, x);
    var q := Qualifying(evolved, thresholds, generation);
    if q != [] {
      var y := q[0];
      QualifyingMembership(evolved, thresholds, generation, y);
    } else {
      forall i | 0 <= i < |thresholds| ensures generation < thresholds[i] {
        QualifyingMembership(evolved, thresholds, generation, evolved[i]);
      }
    }
  }

  /** Branch 1 with exclusive evolution and every threshold reached: exactly the evolved codes. */
  lemma PerCodeThresholdsAllReached(c: MultiplyConfig, generation: int)
    requires PerCodeThresholds(c) && c.exclusiveEvolution
    requires forall i :: 0 <= i < |c.evolutionGenerationThresholds| ==> generation >= c.evolutionGenerationThresholds[i]
    ensures ChildCodes(c, generation) == c.spawnEvolvedEntityCodes
  {
    QualifyingAll(c.spawnEvolvedEntityCodes, c.evolutionGenerationThresholds, generation);
  }

  /** Branch 1 when no threshold is reached and evolution is not exclusive: the base codes
      are listed twice (once as fallback, once appended). */
  lemma PerCodeThresholdsNoneReachedNonExclusive(c: MultiplyConfig, generation: int)
    requires PerCodeThresholds(c) && !c.exclusiveEvolution
    requires forall i :: 0 <= i < |c.evolutionGenerationThresholds| ==> generation < c.evolutionGenerationThresholds[i]
    ensures ChildCodes(c, generation) == c.spawnEntityCodes + c.spawnEntityCodes
  {
    var evolved, thresholds := c.spawnEvolvedEntityCodes, c.evolutionGenerationThresholds;
    var q := Qualifying(evolved, thresholds, generation);
    if q != [] {
      QualifyingMembership(evolved, thresholds, generation, q[0]);
    }
  }

  /** Branch 2: the evolved codes followed by the base codes, and `exclusiveEvolution` has no effect. */
  lemma SingleThresholdIgnoresExclusive(c: MultiplyConfig, generation: int, exclusive: bool)
    requires SingleThresholdReached(c, generation)
    ensures ChildCodes(c, generation) == c.spawnEvolvedEntityCodes + c.spawnEntityCodes
    ensures ChildCodes(c.(exclusiveEvolution := exclusive), generation) == ChildCodes(c, generation)
  {
  }

  /** Fallback: without branch 1, and without a single reached threshold, only the base codes. */
  lemma FallbackUsesBaseCodes(c: MultiplyConfig, generation: int)
    requires !PerCodeThresholds(c)
    requires !SingleThresholdReached(c, generation)
    ensures ChildCodes(c, generation) == c.spawnEntityCodes
  {
  }

  /** One evolved code with one threshold takes branch 1, so exclusive evolution keeps the base
      codes out, unlike branch 2. */
  lemma SingleEvolvedCodeTakesPerCodeBranch(c: MultiplyConfig, generation: int)
    requires |c.spawnEvolvedEntityCodes| == 1 && |c.evolutionGenerationThresholds| == 1
    requires generation >= c.evolutionGenerationThresholds[0]
    ensures c.exclusiveEvolution ==> ChildCodes(c, generation) == c.spawnEvolvedEntityCodes
    ensures !c.exclusiveEvolution ==> ChildCodes(c, generation) == c.spawnEvolvedEntityCodes + c.spawnEntityCodes
  {
    var evolved, thresholds := c.spawnEvolvedEntityCodes, c.evolutionGenerationThresholds;
    assert evolved[..0] == [] && thresholds[..0] == [];
    assert Qualifying(evolved, thresholds, generation) == evolved;
  }

  /** The two abort checks after the candidate list is built: base codes empty while evolved
      codes exist, or an empty candidate list. */
  predicate BirthAborts(c: MultiplyConfig, generation: int)
  {
    (|c.spawnEntityCodes| < 1 && |c.spawnEvolvedEntityCodes| >= 1) || ChildCodes(c, generation) == []
  }

  /** The two abort checks fire exactly when the base code list is empty, so an evolved-only
      configuration never produces offspring, at any generation. */
  lemma BirthAbortsIffNoBaseCodes(c: MultiplyConfig, generation: int)
    ensures BirthAborts(c, generation) <==> c.spawnEntityCodes == []
  {
    if c.spawnEntityCodes != [] && PerCodeThresholds(c) {
      var q := Qualifying(c.spawnEvolvedEntityCodes, c.evolutionGenerationThresholds, generation);
      assert |ChildCodes(c, generation)| >= |if q == [] then c.spawnEntityCodes else q|;
    }
  }

  // ---------------------------------------------------------------------------
  // Litter
  // ---------------------------------------------------------------------------

  /** A spawned offspring: its code, its generation and its "origin" attribute. */
  datatype Child = Child(code: Code, generation: int, origin: string)

  /** A value returned by the host's random generator. */
  predicate ValidDraw(d: real)
  {
    0.0 <= d < 1.0
  }

  /** The sampled litter size `q`, between the configured minimum and maximum. */
  function SpawnQuantity(c: MultiplyConfig, draw: real): (q: real)
    ensures c.spawnQuantityMin <= c.spawnQuantityMax && ValidDraw(draw)
            ==> c.spawnQuantityMin <= q <= c.spawnQuantityMax
  {
    var span := c.spawnQuantityMax - c.spawnQuantityMin;
    assert ValidDraw(draw) && span >= 0.0 ==> 0.0 <= draw * span <= span;
    c.spawnQuantityMin + draw * span
  }

  /** The sampled cooldown length in days; never negative when both bounds are non-negative. */
  function CooldownDays(c: MultiplyConfig, draw: real): (d: real)
    ensures c.multiplyCooldownDaysMin >= 0.0 && c.multiplyCooldownDaysMax >= 0.0 && ValidDraw(draw)
            ==> d >= 0.0
  {
    var lo, hi := c.multiplyCooldownDaysMin, c.multiplyCooldownDaysMax;
    assert lo + draw * (hi - lo) == (1.0 - draw) * lo + draw * hi;
    assert lo >= 0.0 && hi >= 0.0 && ValidDraw(draw) ==> (1.0 - draw) * lo >= 0.0 && draw * hi >= 0.0 by {
      if lo >= 0.0 && hi >= 0.0 && ValidDraw(draw) {
        assert (1.0 - draw) * lo >= 0.0 * lo;
        assert draw * hi >= 0.0 * hi;
      }
    }
    lo + draw * (hi - lo)
  }

  /** How many offspring the spawn loop produces for a litter size `q`: every whole unit
      above the last is certain, and one more is spawned when the first draw the loop
      makes falls below the remaining fraction in (0, 1] (so, for a uniform draw, the
      expected count is `q`). */
  function LitterSize(q: real, firstDraw: real): (n: nat)
  {
    if q <= 0.0 then 0
    else
      var sure := Ceil(q) - 1;
      sure + (if firstDraw < q - sure as real then 1 else 0)
  }

  /** The litter size lies within one of `q` rounded up; a whole `q` is spawned exactly. */
  lemma LitterSizeBounds(q: real, firstDraw: real)
    requires ValidDraw(firstDraw)
    ensures q <= 0.0 ==> LitterSize(q, firstDraw) == 0
    ensures q > 0.0 ==> Ceil(q) - 1 <= LitterSize(q, firstDraw) <= Ceil(q)
    ensures q > 0.0 && q == q.Floor as real ==> LitterSize(q, firstDraw) == q.Floor
  {
  }

  /** The litter: `LitterSize` offspring sharing one code, one generation above the parent,
      all of origin "reproduction". */
  function Litter(q: real, code: Code, generation: int, draws: nat -> real): (r: seq<Child>)
    ensures forall i :: 0 <= i < |r| ==> r[i] == Child(code, generation + 1, "reproduction")
  {
    seq(LitterSize(q, draws(0)), _ => Child(code, generation + 1, "reproduction"))
  }

  /** The spawn loop: while `q > 1`, or else while a fresh draw falls below `q`, spawn one
      offspring and decrease `q` by 1. `draws(j)` is the j-th draw the loop condition makes
      (the test `q > 1` short-circuits and makes none). */
  method SpawnLitter(q0: real, code: Code, generation: int, draws: nat -> real) returns (children: seq<Child>)
    requires forall j: nat :: ValidDraw(draws(j))
    ensures children == Litter(q0, code, generation, draws)
  {
    var q := q0;
    var j: nat := 0;
    ghost var sure := if q0 <= 0.0 then 0 else Ceil(q0) - 1;
    children := [];
    while q > 1.0 || draws(j) < q
      invariant q == q0 - |children| as real
      invariant j <= 1
      invariant j == 0 ==> |children| <= sure
      invariant j == 1 ==> |children| == sure + 1 && draws(0) < q0 - sure as real && q <= 0.0
      invariant forall i :: 0 <= i < |children| ==> children[i] == Child(code, generation + 1, "reproduction")
      decreases if q > 0.0 then q.Floor + 1 else 0
    {
      var drew := !(q > 1.0);
      q := q - 1.0;
      children := children + [Child(code, generation + 1, "reproduction")];
      if drew {
        j := j + 1;
      }
    }
    assert |children| == LitterSize(q0, draws(0));
  }

  /** The offspring of a birth: none when the birth aborts, otherwise a litter of the one
      candidate code at index `pick` (taken modulo the number of candidates). */
  function BirthChildren(c: MultiplyConfig, generation: int, q: real, pick: nat, draws: nat -> real)
    : (r: seq<Child>)
    ensures BirthAborts(c, generation) ==> r == []
    ensures !BirthAborts(c, generation) ==> |r| == LitterSize(q, draws(0))
    ensures |r| > 0 ==> c.spawnEntityCodes != []
    ensures forall i :: 0 <= i < |r| ==>
              && r[i].code in ChildCodes(c, generation)
              && r[i].code == r[0].code
              && r[i].generation == generation + 1
              && r[i].origin == "reproduction"
  {
    BirthAbortsIffNoBaseCodes(c, generation);
    if BirthAborts(c, generation) then []
    else
      var codes := ChildCodes(c, generation);
      Litter(q, codes[pick % |codes|], generation, draws)
  }
}
