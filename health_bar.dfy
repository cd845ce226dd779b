/** The health bar's fill percentage and its three colour bands
    (components/HealthBar.tsx). The source computes in floating point;
    here `percent` is an exact real. */
module HealthBar {

  datatype BarColor = Green | Yellow | Red

  /** `Math.max(0, (hp / maxHp) * 100)`: never negative, and not capped at 100. */
  function Percent(hp: int, maxHp: int): (p: real)
    requires maxHp > 0
    ensures p >= 0.0
    ensures hp <= 0 ==> p == 0.0
    ensures hp >= 0 ==> p * (maxHp as real) == 100.0 * (hp as real)
  {
    var raw := (hp as real / maxHp as real) * 100.0;
    if raw < 0.0 then 0.0 else raw
  }

  /** The cascade `green; if (percent < 50) yellow; if (percent < 25) red`,
      stated as three bands: exactly 50 is green and exactly 25 is yellow. */
  function ColorOfPercent(percent: real): (c: BarColor)
    ensures c == Green <==> percent >= 50.0
    ensures c == Yellow <==> 25.0 <= percent < 50.0
    ensures c == Red <==> percent < 25.0
  {
    var color := if percent < 50.0 then Yellow else Green;
    if percent < 25.0 then Red else color
  }

  /** The colour the bar of a player with `hp` out of `maxHp` is drawn in. */
  function BarColorOf(hp: int, maxHp: int): BarColor
    requires maxHp > 0
  {
    ColorOfPercent(Percent(hp, maxHp))
  }

  /** How healthy a colour looks: red < yellow < green. */
  function Health(c: BarColor): nat {
    match c
    case Red => 0
    case Yellow => 1
    case Green => 2
  }

  /** `percent < bound` decided without division: `100 * hp < bound * maxHp`. */
  lemma PercentBelow(hp: int, maxHp: int, bound: int)
    requires maxHp > 0 && bound > 0
    ensures Percent(hp, maxHp) < bound as real <==> 100 * hp < bound * maxHp
  {
    var m := maxHp as real;
    var p := Percent(hp, maxHp);
    if hp >= 0 {
      assert p * m == 100.0 * (hp as real);
      if p < bound as real {
        assert p * m < (bound as real) * m;
      } else {
        assert p * m >= (bound as real) * m;
      }
    }
  }

  /** The three bands by integer cross-multiplication. */
  lemma BandsByCrossMultiplication(hp: int, maxHp: int)
    requires maxHp > 0
    ensures BarColorOf(hp, maxHp) == Green <==> 2 * hp >= maxHp
    ensures BarColorOf(hp, maxHp) == Yellow <==> 4 * hp >= maxHp && 2 * hp < maxHp
    ensures BarColorOf(hp, maxHp) == Red <==> 4 * hp < maxHp
  {
    PercentBelow(hp, maxHp, 50);
    PercentBelow(hp, maxHp, 25);
  }

  /** Losing hp never makes the bar look healthier. */
  lemma ColorMonotone(hp: int, hp': int, maxHp: int)
    requires maxHp > 0 && hp' <= hp
    ensures Health(BarColorOf(hp', maxHp)) <= Health(BarColorOf(hp, maxHp))
  {
    BandsByCrossMultiplication(hp, maxHp);
    BandsByCrossMultiplication(hp', maxHp);
  }
}
