/** Hour-by-hour settlement of one representative day: each hour's demand is
    covered first by the hour's own generation (self-consumption); what
    generation is left over is exported surplus, what demand is left over is
    imported from the grid. */
module Settlement {
  import opened Series

  /** The settlement record: the two input curves and the three derived ones. */
  datatype Hourly = Hourly(
    demand: seq<real>,
    generation: seq<real>,
    autoconsumo: seq<real>,
    excedente: seq<real>,
    importada: seq<real>)

  function Min(a: real, b: real): (m: real) { if a <= b then a else b }

  function Max(a: real, b: real): (m: real) { if a >= b then a else b }

  /** Splits every hour into self-consumption, surplus and import. */
  function SettleHourly(demand: seq<real>, generation: seq<real>): (r: Hourly)
    requires |demand| == |generation|
    ensures r.demand == demand && r.generation == generation
    ensures |r.autoconsumo| == |r.excedente| == |r.importada| == |demand|
    ensures forall h :: 0 <= h < |demand| ==>
      && r.autoconsumo[h] <= demand[h] && r.autoconsumo[h] <= generation[h]
      && (r.autoconsumo[h] == demand[h] || r.autoconsumo[h] == generation[h])
    ensures forall h :: 0 <= h < |demand| ==>
      r.autoconsumo[h] + r.importada[h] == demand[h] && r.autoconsumo[h] + r.excedente[h] == generation[h]
    ensures forall h :: 0 <= h < |demand| ==>
      r.excedente[h] >= 0.0 && r.importada[h] >= 0.0 && (r.excedente[h] == 0.0 || r.importada[h] == 0.0)
  {
    var n := |demand|;
    Hourly(
      demand,
      generation,
      seq(n, h requires 0 <= h < n => Min(generation[h], demand[h])),
      seq(n, h requires 0 <= h < n => Max(generation[h] - demand[h], 0.0)),
      seq(n, h requires 0 <= h < n => Max(demand[h] - generation[h], 0.0)))
  }

  /** The settlement is the only split of an hour into a self-consumed part,
      a non-negative surplus and a non-negative import, never both positive,
      that balances both demand and generation. */
  lemma SettlementUnique(demand: seq<real>, generation: seq<real>, a: seq<real>, e: seq<real>, i: seq<real>)
    requires |demand| == |generation| == |a| == |e| == |i|
    requires forall h :: 0 <= h < |a| ==> a[h] + i[h] == demand[h] && a[h] + e[h] == generation[h]
    requires forall h :: 0 <= h < |a| ==> e[h] >= 0.0 && i[h] >= 0.0 && (e[h] == 0.0 || i[h] == 0.0)
    ensures SettleHourly(demand, generation) == Hourly(demand, generation, a, e, i)
  {
    var r := SettleHourly(demand, generation);
    assert r.autoconsumo == a;
    assert r.excedente == e;
    assert r.importada == i;
  }

  /** Daily totals balance: self-consumption plus import is the day's demand,
      self-consumption plus surplus is the day's generation, and all three
      totals are non-negative. */
  lemma {:induction false} SettlementTotals(demand: seq<real>, generation: seq<real>)
    requires |demand| == |generation|
    ensures var r := SettleHourly(demand, generation);
      && Sum(r.autoconsumo) + Sum(r.importada) == Sum(demand)
      && Sum(r.autoconsumo) + Sum(r.excedente) == Sum(generation)
      && Sum(r.excedente) >= 0.0 && Sum(r.importada) >= 0.0
  {
    var r := SettleHourly(demand, generation);
    SumPointwise(r.autoconsumo, r.importada, demand);
    SumPointwise(r.autoconsumo, r.excedente, generation);
    SumNonNegative(r.excedente);
    SumNonNegative(r.importada);
  }

  /** Without generation, nothing is self-consumed or exported and all of a
      non-negative demand is imported. */
  lemma SettlementNoGeneration(demand: seq<real>, generation: seq<real>)
    requires |demand| == |generation| && NonNegative(demand)
    requires forall h :: 0 <= h < |generation| ==> generation[h] == 0.0
    ensures var r := SettleHourly(demand, generation);
      && r.importada == demand
      && r.excedente == Zeros(|demand|)
      && r.autoconsumo == Zeros(|demand|)
  {
    var r := SettleHourly(demand, generation);
    assert r.importada == demand;
    assert r.excedente == Zeros(|demand|);
    assert r.autoconsumo == Zeros(|demand|);
  }
}
