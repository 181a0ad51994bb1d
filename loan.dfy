/**
 * The loan form of the debt-rate calculator and the quantities `calculateAPR`
 * derives from it: total payment and interest by payment type, the
 * grace-period override, fees, cost, term in years, the APR and the simple or
 * compound annual rate. Amounts are exact reals; the form's text fields are
 * taken as already parsed (`parseFloat(..) || 0`, `parseInt(..) || 0`).
 */
module Loan {

  datatype Frequency = Daily | Weekly | Biweekly | Monthly | Yearly

  datatype PaymentType = PrincipalInterest | InterestOnly | PrincipalOnly

  datatype InterestType = Simple | Compound

  datatype LoanInput = LoanInput(
    loanAmount: real,
    actualReceived: real,
    paymentAmount: real,
    totalPeriods: int,
    paymentFrequency: Frequency,
    paymentType: PaymentType,
    hasGracePeriod: bool,
    gracePeriod: int,
    interestType: InterestType)

  /** Payment periods per year for each repayment frequency. */
  function PeriodsPerYear(f: Frequency): (n: int)
    ensures 1 <= n <= 365
  {
    match f
    case Daily => 365
    case Weekly => 52
    case Biweekly => 26
    case Monthly => 12
    case Yearly => 1
  }

  /** A result exists only when all four required amounts are positive. */
  predicate Computable(x: LoanInput)
  {
    x.loanAmount > 0.0 && x.actualReceived > 0.0 && x.paymentAmount > 0.0 && x.totalPeriods > 0
  }

  /** The grace-period block runs only when the box is ticked and the count is positive. */
  predicate GraceActive(x: LoanInput)
  {
    x.hasGracePeriod && x.gracePeriod > 0
  }

  datatype Totals = Totals(payment: real, interest: real)

  /** Every scheduled payment added up: paymentAmount × totalPeriods. */
  function Scheduled(x: LoanInput): real
  {
    x.paymentAmount * x.totalPeriods as real
  }

  /** Totals chosen by payment type, before any grace-period override. */
  function BaseTotals(x: LoanInput): Totals
  {
    match x.paymentType
    case PrincipalInterest => Totals(Scheduled(x), Scheduled(x) - x.loanAmount)
    case InterestOnly => Totals(Scheduled(x) + x.actualReceived, Scheduled(x))
    case PrincipalOnly => Totals(Scheduled(x), Scheduled(x) - x.loanAmount)
  }

  function RegularPeriods(x: LoanInput): int
  {
    x.totalPeriods - x.gracePeriod
  }

  function GracePeriodInterest(x: LoanInput): real
  {
    x.paymentAmount * x.gracePeriod as real
  }

  /** What is repaid after the grace period; the principal is added except for amortised loans. */
  function RegularPayment(x: LoanInput): real
  {
    if x.paymentType == PrincipalInterest then x.paymentAmount * RegularPeriods(x) as real
    else x.loanAmount + x.paymentAmount * RegularPeriods(x) as real
  }

  function GraceTotals(x: LoanInput): Totals
  {
    var payment := GracePeriodInterest(x) + RegularPayment(x);
    Totals(payment, payment - x.loanAmount)
  }

  /** The totals the calculator reports: the grace override replaces the base totals when active. */
  function FinalTotals(x: LoanInput): Totals
  {
    if GraceActive(x) then GraceTotals(x) else BaseTotals(x)
  }

  /** Fees withheld at disbursement; negative when more than the loan was received. */
  function TotalFees(x: LoanInput): real
  {
    x.loanAmount - x.actualReceived
  }

  function TotalCost(x: LoanInput): real
  {
    FinalTotals(x).interest + TotalFees(x)
  }

  /** The term in years: so many years of the chosen frequency make up all the periods. */
  function Years(x: LoanInput): (y: real)
    ensures x.totalPeriods > 0 ==> y > 0.0
  {
    x.totalPeriods as real / PeriodsPerYear(x.paymentFrequency) as real
  }

  function AverageAnnualCost(x: LoanInput): real
    requires x.totalPeriods > 0
  {
    TotalCost(x) / Years(x)
  }

  function Apr(x: LoanInput): real
    requires Computable(x)
  {
    Percent(AverageAnnualCost(x), x.actualReceived)
  }

  /** `part` as a percentage of `whole`. */
  function Percent(part: real, whole: real): real
    requires whole != 0.0
  {
    part / whole * 100.0
  }

  function SimpleInterestRate(x: LoanInput): real
    requires Computable(x)
  {
    if x.interestType == Simple then TotalCost(x) / x.actualReceived / Years(x) * 100.0 else 0.0
  }

  /** The growth factor whose `1/years`-th power the compound rate takes. */
  function CompoundGrowth(x: LoanInput): real
    requires Computable(x)
  {
    (FinalTotals(x).payment + TotalFees(x)) / x.actualReceived
  }

  /** `pow` stands for the floating-point `Math.pow`, which the model does not interpret. */
  function CompoundInterestRate(x: LoanInput, pow: (real, real) -> real): real
    requires Computable(x)
  {
    if x.interestType != Simple && Years(x) > 0.0 then (pow(CompoundGrowth(x), 1.0 / Years(x)) - 1.0) * 100.0
    else 0.0
  }

  /** The same loan with every amount multiplied by `k`. */
  function Scaled(x: LoanInput, k: real): LoanInput
  {
    x.(loanAmount := k * x.loanAmount, actualReceived := k * x.actualReceived, paymentAmount := k * x.paymentAmount)
  }

  /** The shorter the period, the more of them in a year. */
  lemma PeriodsPerYearDistinct(f: Frequency, g: Frequency)
    ensures PeriodsPerYear(f) == PeriodsPerYear(g) <==> f == g
    ensures PeriodsPerYear(Daily) > PeriodsPerYear(Weekly) > PeriodsPerYear(Biweekly)
              > PeriodsPerYear(Monthly) > PeriodsPerYear(Yearly) == 1
  {
  }

  /** Without the grace override the payment type alone fixes the totals. */
  lemma TotalsWithoutGrace(x: LoanInput)
    requires !GraceActive(x)
    ensures x.paymentType != InterestOnly ==>
              FinalTotals(x).payment == x.paymentAmount * x.totalPeriods as real
              && FinalTotals(x).interest == FinalTotals(x).payment - x.loanAmount
    ensures x.paymentType == InterestOnly ==>
              FinalTotals(x).interest == x.paymentAmount * x.totalPeriods as real
              && FinalTotals(x).payment == FinalTotals(x).interest + x.actualReceived
    ensures FinalTotals(x.(paymentType := PrincipalOnly)) == FinalTotals(x.(paymentType := PrincipalInterest))
  {
  }

  /** The grace override: what it replaces, what it keeps, and what it amounts to. */
  lemma GraceOverride(x: LoanInput)
    requires GraceActive(x)
    ensures FinalTotals(x).payment == x.paymentAmount * x.gracePeriod as real + RegularPayment(x)
    ensures FinalTotals(x).interest == FinalTotals(x).payment - x.loanAmount
    ensures TotalFees(x) == TotalFees(x.(hasGracePeriod := false))
    ensures x.paymentType == PrincipalInterest ==> FinalTotals(x).payment == Scheduled(x)
    ensures x.paymentType != PrincipalInterest ==>
              FinalTotals(x).payment == x.loanAmount + Scheduled(x) && FinalTotals(x).interest == Scheduled(x)
    ensures RegularPeriods(x) < 0 <==> x.gracePeriod > x.totalPeriods
  {
    var p, g, n := x.paymentAmount, x.gracePeriod as real, x.totalPeriods as real;
    assert RegularPeriods(x) as real == n - g;
    assert p * g + p * (n - g) == p * n;
  }

  /** Cost, term and rates as the calculator reports them. */
  lemma CostYearsAndRates(x: LoanInput, pow: (real, real) -> real)
    requires Computable(x)
    ensures TotalCost(x) == FinalTotals(x).interest + TotalFees(x)
    ensures Years(x) > 0.0
    ensures Apr(x) * x.actualReceived * Years(x) == TotalCost(x) * 100.0
    ensures x.interestType == Simple ==> SimpleInterestRate(x) == Apr(x) && CompoundInterestRate(x, pow) == 0.0
    ensures x.interestType == Compound ==>
              SimpleInterestRate(x) == 0.0
              && CompoundInterestRate(x, pow) == (pow(CompoundGrowth(x), 1.0 / Years(x)) - 1.0) * 100.0
  {
    var c, a, y := TotalCost(x), x.actualReceived, Years(x);
    DivideTwice(c, a, y);
    assert Apr(x) == c / y / a * 100.0;
  }

  /** Dividing by two non-zero reals in either order gives the same quotient. */
  lemma DivideTwice(c: real, a: real, y: real)
    requires a != 0.0 && y != 0.0
    ensures c / y / a == c / a / y
    ensures c / y / a * a * y == c
  {
    var q := c / y / a;
    assert q * a == c / y;
    assert q * a * y == c;
    assert (c / a / y) * y * a == c;
  }

  /** The cost scales with the amounts. */
  lemma TotalCostScales(x: LoanInput, k: real)
    ensures TotalCost(Scaled(x, k)) == k * TotalCost(x)
  {
    var s := Scaled(x, k);
    assert FinalTotals(s).interest == k * FinalTotals(x).interest by {
      if GraceActive(x) {
        GraceInterestScales(x, k);
      } else {
        BaseInterestScales(x, k);
      }
    }
  }

  lemma ProductScales(k: real, p: real, n: real)
    ensures (k * p) * n == k * (p * n)
  {
  }

  lemma BaseInterestScales(x: LoanInput, k: real)
    ensures BaseTotals(Scaled(x, k)).interest == k * BaseTotals(x).interest
  {
    ProductScales(k, x.paymentAmount, x.totalPeriods as real);
  }

  lemma GraceInterestScales(x: LoanInput, k: real)
    ensures GraceTotals(Scaled(x, k)).interest == k * GraceTotals(x).interest
  {
    ProductScales(k, x.paymentAmount, x.gracePeriod as real);
    ProductScales(k, x.paymentAmount, RegularPeriods(x) as real);
  }

  /** The APR is the same in any currency unit: scaling every amount leaves it unchanged. */
  lemma AprScaleInvariant(x: LoanInput, k: real)
    requires Computable(x) && k > 0.0
    ensures Computable(Scaled(x, k))
    ensures Apr(Scaled(x, k)) == Apr(x)
  {
    var s := Scaled(x, k);
    PositiveProduct(k, x.loanAmount);
    PositiveProduct(k, x.actualReceived);
    PositiveProduct(k, x.paymentAmount);
    TotalCostScales(x, k);
    AprOfScaledParts(x, s, k);
  }

  /** The APR depends on the amounts only through the cost and the amount received. */
  lemma AprOfScaledParts(x: LoanInput, s: LoanInput, k: real)
    requires Computable(x) && Computable(s) && k > 0.0
    requires s.actualReceived == k * x.actualReceived && TotalCost(s) == k * TotalCost(x) && Years(s) == Years(x)
    ensures Percent(TotalCost(s) / Years(s), s.actualReceived) == Percent(TotalCost(x) / Years(x), x.actualReceived)
  {
    ScaledQuotient(k, TotalCost(x), Years(x), x.actualReceived, TotalCost(s), s.actualReceived);
  }

  lemma ScaledQuotient(k: real, c: real, y: real, a: real, cs: real, rs: real)
    requires k > 0.0 && y != 0.0 && a != 0.0
    requires cs == k * c && rs == k * a
    ensures Percent(cs / y, rs) == Percent(c / y, a)
  {
    CancelFactor(k, c, y);
    CancelFactor(k, c / y, a);
  }

  lemma PositiveProduct(k: real, u: real)
    requires k > 0.0 && u > 0.0
    ensures k * u > 0.0
  {
  }

  /** A common positive factor cancels out of a quotient. */
  lemma CancelFactor(k: real, u: real, v: real)
    requires k > 0.0 && v != 0.0
    ensures (k * u) / v == k * (u / v)
    ensures (k * u) / (k * v) == u / v
  {
    assert (u / v) * v == u;
    assert k * (u / v) * v == k * u;
    assert (u / v) * (k * v) == k * u;
  }

  /** The APR has the sign of the total cost. */
  lemma AprSign(x: LoanInput)
    requires Computable(x)
    ensures Apr(x) > 0.0 <==> TotalCost(x) > 0.0
    ensures Apr(x) == 0.0 <==> TotalCost(x) == 0.0
  {
    var c, a, y := TotalCost(x), x.actualReceived, Years(x);
    DivideTwice(c, a, y);
    assert Apr(x) * (a * y) == c * 100.0;
    assert a * y > 0.0;
  }
}
