/** The API cost chart's data: one entry per month of the current year. */
module CostChart {

  const Months: seq<string> := ["Jan", "Feb", "Mar", "Apr", "May", "Jun", "Jul", "Aug", "Sep", "Oct", "Nov", "Dec"]

  datatype MonthCost = MonthCost(month: string, cost: int)

  /** A random draw in `[0, 1)`, as `Math.random()` returns. */
  predicate IsDraw(x: real) {
    0.0 <= x < 1.0
  }

  /** The cost of a month up to the current one, `Math.floor(draw * 500) + 100`. */
  function MonthlyCost(draw: real): (c: int)
    requires IsDraw(draw)
    ensures 100 <= c <= 599
  {
    var scaled := draw * 500.0;
    assert 0.0 <= scaled < 500.0;
    assert scaled.Floor as real <= scaled;
    (scaled.Floor) + 100
  }

  /** `generateCurrentYearData`, for the month index the clock gives (0 for January) and the
      draw used for each month: months up to the current one cost
      `Math.floor(draw * 500) + 100`, later months cost 0. */
  function GenerateCurrentYearData(currentMonth: nat, draws: seq<real>): (r: seq<MonthCost>)
    requires currentMonth < 12 && |draws| == 12
    requires forall i :: 0 <= i < 12 ==> IsDraw(draws[i])
    ensures |r| == 12
    ensures forall i :: 0 <= i < 12 ==> r[i].month == Months[i]
    ensures forall i :: currentMonth < i < 12 ==> r[i].cost == 0
    ensures forall i :: 0 <= i <= currentMonth ==> 100 <= r[i].cost <= 599
  {
    seq(12, i requires 0 <= i < 12 =>
      MonthCost(Months[i], if i <= currentMonth then MonthlyCost(draws[i]) else 0))
  }

  /** The number of months that carry a cost. */
  function BilledMonths(data: seq<MonthCost>): nat {
    if data == [] then 0 else (if data[0].cost > 0 then 1 else 0) + BilledMonths(data[1..])
  }

  lemma {:induction false} BilledMonthsOfSplit(data: seq<MonthCost>, k: nat)
    requires k <= |data|
    requires forall i :: 0 <= i < k ==> data[i].cost > 0
    requires forall i :: k <= i < |data| ==> data[i].cost == 0
    ensures BilledMonths(data) == k
  {
    if data != [] {
      if k > 0 {
        BilledMonthsOfSplit(data[1..], k - 1);
      } else {
        BilledMonthsOfSplit(data[1..], 0);
      }
    }
  }

  /** The chart bills exactly the months from January up to and including the current one. */
  lemma BilledMonthsSoFar(currentMonth: nat, draws: seq<real>)
    requires currentMonth < 12 && |draws| == 12
    requires forall i :: 0 <= i < 12 ==> IsDraw(draws[i])
    ensures BilledMonths(GenerateCurrentYearData(currentMonth, draws)) == currentMonth + 1
  {
    BilledMonthsOfSplit(GenerateCurrentYearData(currentMonth, draws), currentMonth + 1);
  }
}
