/** The DPS estimator: the expected damage of one hit when a fraction of hits
    are critical, and the damage per second at a given attack rate. Numbers are
    exact reals. Base damage and attack rate are used as typed; only the crit
    chance and the crit multiplier are clamped. */
module Dps {

  datatype DpsInput = DpsInput(
    baseDamage: real,
    attacksPerSecond: real,
    critChancePct: real,
    critMultiplier: real)

  datatype DpsResult = DpsResult(chance: real, dps: real, expectedHit: real)

  /** The crit chance as a probability: the percentage over 100, clamped to `[0, 1]`. */
  function EffectiveChance(pct: real): (c: real)
    ensures 0.0 <= c <= 1.0
    ensures 0.0 <= pct <= 100.0 ==> c == pct / 100.0
    ensures pct <= 0.0 ==> c == 0.0
    ensures pct >= 100.0 ==> c == 1.0
  {
    var atLeast := if pct / 100.0 > 0.0 then pct / 100.0 else 0.0;
    if atLeast < 1.0 then atLeast else 1.0
  }

  /** The crit multiplier, raised to 1 when it is smaller. */
  function EffectiveMultiplier(m: real): (e: real)
    ensures e >= 1.0
    ensures m >= 1.0 ==> e == m
    ensures m < 1.0 ==> e == 1.0
  {
    if m > 1.0 then m else 1.0
  }

  /** The estimator. The expected hit is the usual two-outcome average: a
      normal hit with probability `1 - chance`, a critical one (base damage
      times the multiplier) with probability `chance`; the damage per second
      is that expected hit times the attack rate. */
  function Estimate(input: DpsInput): (r: DpsResult)
    ensures r.chance == EffectiveChance(input.critChancePct)
    ensures var c := r.chance;
      r.expectedHit == (1.0 - c) * input.baseDamage + c * (input.baseDamage * EffectiveMultiplier(input.critMultiplier))
    ensures r.dps == r.expectedHit * input.attacksPerSecond
  {
    var chance := EffectiveChance(input.critChancePct);
    var multiplier := EffectiveMultiplier(input.critMultiplier);
    var factor := 1.0 + chance * (multiplier - 1.0);
    ProductOrder(input.baseDamage, input.attacksPerSecond, factor);
    ExpectedValue(input.baseDamage, chance, multiplier);
    DpsResult(chance, input.baseDamage * input.attacksPerSecond * factor, input.baseDamage * factor)
  }

  lemma ProductOrder(a: real, b: real, c: real)
    ensures a * b * c == a * c * b
  {
  }

  lemma ExpectedValue(base: real, c: real, m: real)
    ensures base * (1.0 + c * (m - 1.0)) == (1.0 - c) * base + c * (base * m)
  {
  }

  /** Without crits, or with a multiplier of at most 1, a hit does its base damage. */
  lemma NoCritIsBase(input: DpsInput)
    requires input.critChancePct <= 0.0 || input.critMultiplier <= 1.0
    ensures Estimate(input).expectedHit == input.baseDamage
  {
  }

  /** For non-negative base damage, crits never lower the expected hit and it
      never exceeds a guaranteed crit. */
  lemma HitBounds(input: DpsInput)
    requires input.baseDamage >= 0.0
    ensures var m := EffectiveMultiplier(input.critMultiplier);
      input.baseDamage <= Estimate(input).expectedHit <= input.baseDamage * m
  {
    var c := EffectiveChance(input.critChancePct);
    var m := EffectiveMultiplier(input.critMultiplier);
    var b := input.baseDamage;
    NonNegativeProduct(b, m - 1.0);
    NonNegativeProduct(c, b * (m - 1.0));
    NonNegativeProduct(1.0 - c, b * (m - 1.0));
    assert Estimate(input).expectedHit == b + c * (b * (m - 1.0));
    assert b * m == b + b * (m - 1.0);
    assert c * (b * (m - 1.0)) + (1.0 - c) * (b * (m - 1.0)) == b * (m - 1.0);
  }

  lemma NonNegativeProduct(a: real, b: real)
    requires a >= 0.0 && b >= 0.0
    ensures a * b >= 0.0
  {
  }

  /** For non-negative base damage, a higher crit chance never lowers the expected hit. */
  lemma MonotoneInChance(input: DpsInput, pct: real)
    requires input.baseDamage >= 0.0 && input.critChancePct <= pct
    ensures Estimate(input).expectedHit <= Estimate(input.(critChancePct := pct)).expectedHit
  {
    var c1 := EffectiveChance(input.critChancePct);
    var c2 := EffectiveChance(pct);
    var m := EffectiveMultiplier(input.critMultiplier);
    var b := input.baseDamage;
    assert c1 <= c2;
    NonNegativeProduct(b, m - 1.0);
    NonNegativeProduct(c2 - c1, b * (m - 1.0));
    assert Estimate(input).expectedHit == b + c1 * (b * (m - 1.0));
    assert Estimate(input.(critChancePct := pct)).expectedHit == b + c2 * (b * (m - 1.0));
    assert c2 * (b * (m - 1.0)) == c1 * (b * (m - 1.0)) + (c2 - c1) * (b * (m - 1.0));
  }

  /** For non-negative base damage, a larger crit multiplier never lowers the expected hit. */
  lemma MonotoneInMultiplier(input: DpsInput, mult: real)
    requires input.baseDamage >= 0.0 && input.critMultiplier <= mult
    ensures Estimate(input).expectedHit <= Estimate(input.(critMultiplier := mult)).expectedHit
  {
    var c := EffectiveChance(input.critChancePct);
    var m1 := EffectiveMultiplier(input.critMultiplier);
    var m2 := EffectiveMultiplier(mult);
    var b := input.baseDamage;
    assert m1 <= m2;
    NonNegativeProduct(b * c, m2 - m1);
    assert Estimate(input).expectedHit == b + b * c * (m1 - 1.0);
    assert Estimate(input.(critMultiplier := mult)).expectedHit == b + b * c * (m2 - 1.0);
    assert b * c * (m2 - 1.0) == b * c * (m1 - 1.0) + b * c * (m2 - m1);
    NonNegativeProduct(b, c);
  }

  /** Out-of-range crit inputs act like the nearest value in range. */
  lemma ClampedInputsAct(input: DpsInput)
    ensures input.critChancePct < 0.0 ==> Estimate(input) == Estimate(input.(critChancePct := 0.0))
    ensures input.critChancePct > 100.0 ==> Estimate(input) == Estimate(input.(critChancePct := 100.0))
    ensures input.critMultiplier < 1.0 ==> Estimate(input) == Estimate(input.(critMultiplier := 1.0))
  {
  }

  /** Base 100, one attack a second, no crit chance, multiplier 2: 100 per hit and per second. */
  lemma NoCritExample()
    ensures Estimate(DpsInput(100.0, 1.0, 0.0, 2.0)) == DpsResult(0.0, 100.0, 100.0)
  {
  }

  /** Base 100, two attacks a second, 50% crits at 3x: 200 per hit, 400 per second. */
  lemma HalfCritExample()
    ensures Estimate(DpsInput(100.0, 2.0, 50.0, 3.0)) == DpsResult(0.5, 400.0, 200.0)
  {
  }
}
