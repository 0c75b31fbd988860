/** The two synthetic hourly profiles of one representative day: household
    demand (a five-band load shape with per-hour noise, rescaled to the daily
    share of the monthly consumption) and solar generation (a clipped sine
    curve scaled to the requested compensation percentage). */
module Profiles {
  import opened Series

  /** Hour-of-day load multiplier of the residential shape; an hour outside
      0..23 keeps the multiplier table's initial zero. */
  function Multiplier(h: int): (m: real)
    ensures 0 <= h < 24 ==> 0.35 <= m <= 1.65
    ensures !(0 <= h < 24) ==> m == 0.0
  {
    if 0 <= h <= 7 then 0.35
    else if 8 <= h <= 10 then 1.15
    else if 11 <= h <= 16 then 1.65
    else if 17 <= h <= 21 then 1.30
    else if 22 <= h <= 23 then 0.55
    else 0.0
  }

  /** The noise factors are drawn from [0.8, 1.2]. */
  predicate NoiseInRange(noise: seq<real>)
  {
    forall h :: 0 <= h < |noise| ==> 0.8 <= noise[h] <= 1.2
  }

  /** The demand before rescaling: flat base times band multiplier times noise. */
  function Unscaled(monthly: real, noise: seq<real>): (u: seq<real>)
    requires |noise| == 24
    ensures |u| == 24
  {
    seq(24, h requires 0 <= h < 24 => (monthly / DaysPerMonth / 24.0 * Multiplier(h)) * noise[h])
  }

  /** The demand profile: the unscaled vector rescaled so that its sum is the
      daily consumption, unless its sum is not positive (see `Rescale`). */
  function DemandProfile(monthly: real, noise: seq<real>): (p: seq<real>)
    requires |noise| == 24
    ensures |p| == 24
  {
    Rescale(Unscaled(monthly, noise), monthly / DaysPerMonth)
  }

  /** Builds the hourly demand profile. The multiplier table is filled hour by
      hour; `noise` stands for the 24 uniform draws from [0.8, 1.2]. */
  method HourlyConsumptionProfile(monthly: real, noise: seq<real>) returns (profile: seq<real>)
    requires |noise| == 24
    ensures profile == DemandProfile(monthly, noise)
  {
    var base := monthly / DaysPerMonth / 24.0;
    var multipliers := new real[24](_ => 0.0);
    for h := 0 to 24
      invariant forall k :: 0 <= k < h ==> multipliers[k] == Multiplier(k)
      invariant forall k :: h <= k < 24 ==> multipliers[k] == 0.0
    {
      if 0 <= h <= 7 {
        multipliers[h] := 0.35;
      } else if 8 <= h <= 10 {
        multipliers[h] := 1.15;
      } else if 11 <= h <= 16 {
        multipliers[h] := 1.65;
      } else if 17 <= h <= 21 {
        multipliers[h] := 1.30;
      } else if 22 <= h <= 23 {
        multipliers[h] := 0.55;
      }
    }
    var m := multipliers[..];
    profile := seq(24, h requires 0 <= h < 24 => (base * m[h]) * noise[h]);
    assert profile == Unscaled(monthly, noise) by {
      forall h | 0 <= h < 24 ensures profile[h] == Unscaled(monthly, noise)[h] {
        assert m[h] == Multiplier(h);
      }
    }
    if Sum(profile) > 0.0 {
      var scale := (monthly / DaysPerMonth) / Sum(profile);
      profile := Scale(profile, scale);
    }
  }

  /** For a non-negative monthly consumption and noise in [0.8, 1.2], every
      hour is non-negative and the day adds up to exactly monthly / 30. */
  lemma DemandProfileValid(monthly: real, noise: seq<real>)
    requires |noise| == 24 && NoiseInRange(noise)
    requires monthly >= 0.0
    ensures NonNegative(DemandProfile(monthly, noise))
    ensures Sum(DemandProfile(monthly, noise)) == monthly / DaysPerMonth
  {
    var u := Unscaled(monthly, noise);
    assert NonNegative(u) by {
      forall h | 0 <= h < 24 ensures u[h] >= 0.0 {
        assert monthly / DaysPerMonth / 24.0 * Multiplier(h) >= 0.0;
      }
    }
    assert DemandProfile(monthly, noise) == Rescale(u, monthly / DaysPerMonth);
    RescaleNonNegative(u, monthly / DaysPerMonth);
    if monthly > 0.0 {
      forall h | 0 <= h < 24 ensures u[h] > 0.0 {
        assert monthly / DaysPerMonth / 24.0 * Multiplier(h) > 0.0;
      }
      SumPositive(u);
      RescaleSum(u, monthly / DaysPerMonth);
    } else {
      SumZero(u);
    }
  }

  /** The clipped sine curve: 24 non-negative values, zero outside 6..18. */
  predicate ClippedSineShape(raw: seq<real>)
  {
    && |raw| == 24
    && NonNegative(raw)
    && forall h :: 0 <= h < 24 && (h < 6 || h > 18) ==> raw[h] == 0.0
  }

  /** The solar generation profile: all zeros when the raw daily sum is zero
      or the percentage is not positive; otherwise the raw curve times one
      factor chosen so that the month's generation is `percent`% of the
      month's consumption. Percentages above 100 are accepted. */
  function SolarGenerationProfile(monthly: real, percent: real, raw: seq<real>): (gen: seq<real>)
    requires |raw| == 24
    ensures |gen| == 24
    ensures Sum(raw) == 0.0 || percent <= 0.0 ==> forall h :: 0 <= h < 24 ==> gen[h] == 0.0
    ensures Sum(raw) != 0.0 && percent > 0.0 ==> DaysPerMonth * Sum(gen) == monthly * (percent / 100.0)
    ensures forall h :: 0 <= h < 24 && raw[h] == 0.0 ==> gen[h] == 0.0
  {
    var dailyRawSum := Sum(raw);
    if dailyRawSum == 0.0 || percent <= 0.0 then
      Zeros(24)
    else
      var targetMonthlyGen := monthly * (percent / 100.0);
      var scale := targetMonthlyGen / (dailyRawSum * DaysPerMonth);
      SumScale(raw, scale);
      Scale(raw, scale)
  }

  /** Generation is the raw curve times one common factor: every ratio
      between two hours of the raw curve is kept. */
  lemma SolarProportional(monthly: real, percent: real, raw: seq<real>)
    requires |raw| == 24
    ensures var gen := SolarGenerationProfile(monthly, percent, raw);
      forall i, j :: 0 <= i < 24 && 0 <= j < 24 ==> gen[i] * raw[j] == gen[j] * raw[i]
  {
    if Sum(raw) != 0.0 && percent > 0.0 {
      var scale := monthly * (percent / 100.0) / (Sum(raw) * DaysPerMonth);
      assert SolarGenerationProfile(monthly, percent, raw) == Scale(raw, scale);
      ScaleProportional(raw, scale);
    }
  }

  /** For the clipped sine curve and a non-negative consumption, generation
      is non-negative and zero at night (before 6:00 and after 18:00). */
  lemma SolarProfileShape(monthly: real, percent: real, raw: seq<real>)
    requires ClippedSineShape(raw)
    requires monthly >= 0.0
    ensures var gen := SolarGenerationProfile(monthly, percent, raw);
      && NonNegative(gen)
      && forall h :: 0 <= h < 24 && (h < 6 || h > 18) ==> gen[h] == 0.0
  {
    var gen := SolarGenerationProfile(monthly, percent, raw);
    SumNonNegative(raw);
    if Sum(raw) != 0.0 && percent > 0.0 {
      var scale := monthly * (percent / 100.0) / (Sum(raw) * DaysPerMonth);
      assert scale >= 0.0;
      assert gen == Scale(raw, scale);
    }
  }

  /** Over-sizing: with a percentage above 100 the month's generation exceeds
      the month's consumption. */
  lemma SolarOverSizing(monthly: real, percent: real, raw: seq<real>)
    requires ClippedSineShape(raw) && Sum(raw) > 0.0
    requires monthly > 0.0 && percent > 100.0
    ensures DaysPerMonth * Sum(SolarGenerationProfile(monthly, percent, raw)) > monthly
  {
    assert monthly * (percent / 100.0) > monthly * 1.0;
  }
}
