/** The monthly bill with and without the solar project, under the
    single-tier rule: imported energy is paid at the unit rate CU and each
    exported kWh is credited at CU less the marketing cost C. */
module MonthlyBill {
  import opened Series
  import opened Settlement

  /** The bill summary; `ahorro` is the monthly saving, `ahorroPct` the saving
      as a percentage of the bill without the project. */
  datatype Bill = Bill(
    costWithout: real,
    costWith: real,
    ahorro: real,
    ahorroPct: real,
    importedMonthly: real,
    excedenteMonthly: real,
    autoconsumidoMonthly: real)

  /** Bills one month from the representative day's settlement. */
  function Billing(monthly: real, hourly: Hourly, cu: real, c: real): (b: Bill)
    ensures b.costWithout == monthly * cu
    ensures b.importedMonthly == DaysPerMonth * Sum(hourly.importada)
    ensures b.excedenteMonthly == DaysPerMonth * Sum(hourly.excedente)
    ensures b.autoconsumidoMonthly == DaysPerMonth * Sum(hourly.autoconsumo)
    ensures b.costWith == b.importedMonthly * cu - b.excedenteMonthly * (cu - c)
    ensures b.costWith + b.ahorro == b.costWithout
    ensures b.costWithout > 0.0 ==> b.ahorroPct == b.ahorro / b.costWithout * 100.0
    ensures b.costWithout <= 0.0 ==> b.ahorroPct == 0.0
  {
    var costWithout := monthly * cu;
    var importedMonthly := DaysPerMonth * Sum(hourly.importada);
    var excedenteMonthly := DaysPerMonth * Sum(hourly.excedente);
    var costWith := (importedMonthly * cu) - (excedenteMonthly * (cu - c));
    var ahorro := costWithout - costWith;
    var ahorroPct := if costWithout > 0.0 then ahorro / costWithout * 100.0 else 0.0;
    Bill(costWithout, costWith, ahorro, ahorroPct, importedMonthly, excedenteMonthly,
         DaysPerMonth * Sum(hourly.autoconsumo))
  }

  /** The saving percentage is the saving as a share of the bill without
      the project: when that bill is positive, the percentage times that bill
      gives back 100 times the saving. */
  lemma SavingsPercentage(monthly: real, hourly: Hourly, cu: real, c: real)
    ensures var b := Billing(monthly, hourly, cu, c);
      b.costWithout > 0.0 ==> b.ahorroPct * b.costWithout == 100.0 * b.ahorro
  {
    var b := Billing(monthly, hourly, cu, c);
    assert b.costWithout > 0.0 ==> (b.ahorro / b.costWithout * 100.0) * b.costWithout == 100.0 * b.ahorro;
  }

  /** Net billing: every exported kWh cancels one imported kWh at CU and costs
      C; so the bill with the project is the net import at CU plus C on the
      surplus. */
  lemma NetBillingCost(monthly: real, hourly: Hourly, cu: real, c: real)
    ensures var b := Billing(monthly, hourly, cu, c);
      b.costWith == (b.importedMonthly - b.excedenteMonthly) * cu + b.excedenteMonthly * c
  {
  }

  /** The saving is the value of the self-consumed energy at CU plus the
      surplus credited at CU - C. */
  predicate SavingIsAvoidedCost(b: Bill, cu: real, c: real)
  {
    b.ahorro == b.autoconsumidoMonthly * cu + b.excedenteMonthly * (cu - c)
  }

  /** When the monthly consumption is the settled day's demand times 30, the
      saving is the value of the self-consumed energy at CU plus the surplus
      credited at CU - C: the benefit and the avoided cost agree. */
  lemma SavingsDecomposition(monthly: real, demand: seq<real>, generation: seq<real>, cu: real, c: real)
    requires |demand| == |generation|
    requires monthly == DaysPerMonth * Sum(demand)
    ensures SavingIsAvoidedCost(Billing(monthly, SettleHourly(demand, generation), cu, c), cu, c)
  {
    var hourly := SettleHourly(demand, generation);
    SettlementTotals(demand, generation);
    SavingsIdentity(monthly, hourly, cu, c);
  }

  /** The saving identity for any settled day whose self-consumed plus
      imported energy is the monthly consumption. */
  lemma SavingsIdentity(monthly: real, hourly: Hourly, cu: real, c: real)
    requires monthly == DaysPerMonth * (Sum(hourly.autoconsumo) + Sum(hourly.importada))
    ensures SavingIsAvoidedCost(Billing(monthly, hourly, cu, c), cu, c)
  {
    var b := Billing(monthly, hourly, cu, c);
    assert monthly == b.autoconsumidoMonthly + b.importedMonthly;
  }

  /** With no surplus and every kWh of consumption imported, the project
      changes nothing: the two bills are equal and there is no saving. */
  lemma NoSurplusNoSavings(monthly: real, hourly: Hourly, cu: real, c: real)
    requires DaysPerMonth * Sum(hourly.importada) == monthly
    requires Sum(hourly.excedente) == 0.0
    ensures var b := Billing(monthly, hourly, cu, c);
      b.costWith == b.costWithout && b.ahorro == 0.0 && b.ahorroPct == 0.0
  {
  }
}
