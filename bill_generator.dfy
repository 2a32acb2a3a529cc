/**
 * The bill generator: a billing configuration whose meal rate the admin
 * types in, and a table that prices each resident's meals with it.
 */
module BillGenerator {

  datatype BillingInput = BillingInput(month: string, mealRate: int, fixedCharge: int, utilityCharge: int)

  const InitialMonth := "জানুয়ারি ২০২৬"

  /** The configuration the screen starts with. */
  function InitialConfig(): (c: BillingInput)
    ensures c.mealRate == 0 && c.fixedCharge == 3000 && c.utilityCharge == 500
  {
    BillingInput(InitialMonth, 0, 3000, 500)
  }

  /**
   * The meal-rate input's change handler, the only input that writes the
   * configuration: the other two charge inputs are uncontrolled.
   */
  function SetMealRate(c: BillingInput, rate: int): (r: BillingInput)
    ensures r.mealRate == rate
    ensures r.month == c.month && r.fixedCharge == c.fixedCharge && r.utilityCharge == c.utilityCharge
  {
    c.(mealRate := rate)
  }

  /** A row of the bill table: a resident's meal count and other charges. */
  datatype Resident = Resident(name: string, meals: int, other: int)

  datatype Bill = Bill(mealCost: int, totalBill: int)

  /** The cost columns of one row. */
  function BillOf(u: Resident, c: BillingInput): (b: Bill)
    ensures b.mealCost == u.meals * c.mealRate
    ensures b.totalBill == b.mealCost + u.other
  {
    var mealCost := u.meals * c.mealRate;
    Bill(mealCost, mealCost + u.other)
  }

  function Bills(rows: seq<Resident>, c: BillingInput): (bs: seq<Bill>)
    ensures |bs| == |rows|
    ensures forall i :: 0 <= i < |rows| ==> bs[i] == BillOf(rows[i], c)
  {
    seq(|rows|, i requires 0 <= i < |rows| => BillOf(rows[i], c))
  }

  /** With the initial rate of zero every bill is just the other charges. */
  lemma InitialBillsAreOther(rows: seq<Resident>)
    ensures forall i :: 0 <= i < |rows| ==> Bills(rows, InitialConfig())[i].totalBill == rows[i].other
  {
  }

  /** Any sequence of rate edits leaves the fixed and utility charges at 3000 and 500. */
  lemma {:induction false} RateEditsKeepCharges(rates: seq<int>)
    ensures var c := ApplyRates(InitialConfig(), rates);
      c.fixedCharge == 3000 && c.utilityCharge == 500 && c.month == InitialMonth
    decreases |rates|
  {
    if rates != [] {
      RateEditsKeepCharges(rates[..|rates| - 1]);
    }
  }

  /** The configuration after the given meal-rate edits, in order. */
  function ApplyRates(c: BillingInput, rates: seq<int>): BillingInput
    decreases |rates|
  {
    if rates == [] then c else SetMealRate(ApplyRates(c, rates[..|rates| - 1]), rates[|rates| - 1])
  }

  /** For a non-negative meal count a higher rate never lowers the bill. */
  lemma TotalBillMonotone(u: Resident, c: BillingInput, rate1: int, rate2: int)
    requires u.meals >= 0 && rate1 <= rate2
    ensures BillOf(u, SetMealRate(c, rate1)).totalBill <= BillOf(u, SetMealRate(c, rate2)).totalBill
  {
    assert u.meals * rate2 - u.meals * rate1 == u.meals * (rate2 - rate1);
  }
}
