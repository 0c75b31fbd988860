/** One simulation run as the application performs it: demand profile, solar
    profile, hourly settlement, monthly bill. The two inputs the application
    draws from outside (the noise factors and the clipped sine curve) are
    parameters. */
module Simulation {
  import opened Series
  import opened Profiles
  import opened Settlement
  import opened MonthlyBill

  /** The generation the month should reach for `percent`% compensation. */
  function TargetMonthlyGeneration(monthly: real, percent: real, raw: seq<real>): (target: real)
  {
    if Sum(raw) == 0.0 || percent <= 0.0 then 0.0 else monthly * (percent / 100.0)
  }

  /** The settled representative day for one set of inputs. */
  function SettledDay(monthly: real, percent: real, noise: seq<real>, raw: seq<real>): (r: Hourly)
    requires |noise| == 24 && |raw| == 24
    ensures |r.demand| == 24 && |r.generation| == 24
  {
    SettleHourly(DemandProfile(monthly, noise), SolarGenerationProfile(monthly, percent, raw))
  }

  /** The settled day, scaled to the month, balances: self-consumption plus
      import is the monthly consumption, self-consumption plus surplus is the
      target generation. */
  lemma MonthlyEnergyBalance(monthly: real, percent: real, noise: seq<real>, raw: seq<real>)
    requires monthly >= 0.0
    requires |noise| == 24 && NoiseInRange(noise)
    requires |raw| == 24
    ensures var r := SettledDay(monthly, percent, noise, raw);
      && DaysPerMonth * (Sum(r.autoconsumo) + Sum(r.importada)) == monthly
      && DaysPerMonth * (Sum(r.autoconsumo) + Sum(r.excedente)) == TargetMonthlyGeneration(monthly, percent, raw)
  {
    var demand := DemandProfile(monthly, noise);
    var generation := SolarGenerationProfile(monthly, percent, raw);
    DemandProfileValid(monthly, noise);
    SettlementTotals(demand, generation);
    if Sum(raw) == 0.0 || percent <= 0.0 {
      SumZero(generation);
    }
  }

  /** With a compensation percentage of zero or less there is no generation:
      all consumption is imported, nothing is exported or self-consumed. */
  lemma ZeroCompensationEnergy(monthly: real, percent: real, noise: seq<real>, raw: seq<real>)
    requires monthly >= 0.0
    requires |noise| == 24 && NoiseInRange(noise)
    requires |raw| == 24 && percent <= 0.0
    ensures var r := SettledDay(monthly, percent, noise, raw);
      && DaysPerMonth * Sum(r.importada) == monthly
      && Sum(r.excedente) == 0.0 && Sum(r.autoconsumo) == 0.0
  {
    var demand := DemandProfile(monthly, noise);
    var generation := SolarGenerationProfile(monthly, percent, raw);
    DemandProfileValid(monthly, noise);
    SettlementNoGeneration(demand, generation);
    SumZero(Zeros(24));
  }

  /** The saving of the simulated month is what its self-consumed energy is
      worth at CU plus its surplus credited at CU - C. */
  lemma PipelineSavings(monthly: real, percent: real, cu: real, c: real, noise: seq<real>, raw: seq<real>)
    requires monthly >= 0.0
    requires |noise| == 24 && NoiseInRange(noise)
    requires |raw| == 24
    ensures SavingIsAvoidedCost(Billing(monthly, SettledDay(monthly, percent, noise, raw), cu, c), cu, c)
  {
    var demand := DemandProfile(monthly, noise);
    DemandProfileValid(monthly, noise);
    SavingsDecomposition(monthly, demand, SolarGenerationProfile(monthly, percent, raw), cu, c);
  }

  /** With a compensation percentage of zero or less the project changes
      nothing: both bills are equal and there is no saving. */
  lemma ZeroCompensationNoSavings(monthly: real, percent: real, cu: real, c: real, noise: seq<real>, raw: seq<real>)
    requires monthly >= 0.0
    requires |noise| == 24 && NoiseInRange(noise)
    requires |raw| == 24 && percent <= 0.0
    ensures var b := Billing(monthly, SettledDay(monthly, percent, noise, raw), cu, c);
      && b.importedMonthly == monthly && b.excedenteMonthly == 0.0 && b.autoconsumidoMonthly == 0.0
      && b.costWith == b.costWithout && b.ahorro == 0.0 && b.ahorroPct == 0.0
  {
    ZeroCompensationEnergy(monthly, percent, noise, raw);
    NoSurplusNoSavings(monthly, SettledDay(monthly, percent, noise, raw), cu, c);
  }

  /** Runs the pipeline for a non-negative monthly consumption (the input
      widget's minimum is 0). The month's energy balances against consumption
      and target generation, the saving is what self-consumption and credited
      surplus are worth, and with no compensation the bill is unchanged. */
  method Simulate(monthly: real, percent: real, cu: real, c: real, noise: seq<real>, raw: seq<real>)
      returns (hourly: Hourly, bill: Bill)
    requires monthly >= 0.0
    requires |noise| == 24 && NoiseInRange(noise)
    requires |raw| == 24
    ensures hourly == SettledDay(monthly, percent, noise, raw)
    ensures bill == Billing(monthly, hourly, cu, c)
    ensures |hourly.demand| == 24 && |hourly.generation| == 24
    ensures bill.costWithout == monthly * cu
    ensures bill.autoconsumidoMonthly + bill.importedMonthly == monthly
    ensures bill.autoconsumidoMonthly + bill.excedenteMonthly == TargetMonthlyGeneration(monthly, percent, raw)
    ensures SavingIsAvoidedCost(bill, cu, c)
    ensures percent <= 0.0 ==>
      && bill.importedMonthly == monthly && bill.excedenteMonthly == 0.0 && bill.autoconsumidoMonthly == 0.0
      && bill.costWith == bill.costWithout && bill.ahorro == 0.0 && bill.ahorroPct == 0.0
  {
    var demand := HourlyConsumptionProfile(monthly, noise);
    var generation := SolarGenerationProfile(monthly, percent, raw);
    hourly := SettleHourly(demand, generation);
    bill := Billing(monthly, hourly, cu, c);
    assert hourly == SettledDay(monthly, percent, noise, raw);
    MonthlyEnergyBalance(monthly, percent, noise, raw);
    PipelineSavings(monthly, percent, cu, c, noise, raw);
    if percent <= 0.0 {
      ZeroCompensationNoSavings(monthly, percent, cu, c, noise, raw);
    }
  }
}
