/**
 * `calculateAPR`: from a parsed loan form to the rate result the page shows,
 * or to no result while a required amount is missing or not positive.
 * The method keeps the source's mutable totals, its override and its growing
 * explanation; the functions below give the result it must produce.
 */
module Calculator {

  import opened Wrappers
  import opened Loan
  import opened Legal
  import opened Trace

  datatype RateResult = RateResult(
    totalInterest: real,
    totalFees: real,
    totalCost: real,
    totalPayment: real,
    apr: real,
    simpleInterestRate: real,
    compoundInterestRate: real,
    warningMessage: Message,
    warningLevel: WarningLevel,
    violatedLaws: seq<Law>,
    years: real,
    effectivePeriods: int,
    calculationSteps: seq<Step>)

  /** Lines 3 and 4: the totals of the payment-type switch, before any grace override. */
  function PaymentTypeLines(x: LoanInput): seq<StepKind>
  {
    var t := BaseTotals(x);
    if x.paymentType == InterestOnly then
      [PaymentTypeLine(InterestOnly, x.paymentAmount, x.totalPeriods, t.interest),
       TotalPaymentLine(t.interest, x.loanAmount, t.payment)]
    else
      [PaymentTypeLine(x.paymentType, x.paymentAmount, x.totalPeriods, t.payment),
       InterestLine(t.payment, x.loanAmount, t.interest)]
  }

  /** The four grace-period lines, present only when the override runs. */
  function GraceLines(x: LoanInput): seq<StepKind>
  {
    if GraceActive(x) then
      var t := GraceTotals(x);
      [GraceInterestLine(x.gracePeriod, GracePeriodInterest(x)),
       RegularRepaymentLine(RegularPeriods(x), RegularPayment(x)),
       GraceTotalLine(GracePeriodInterest(x), RegularPayment(x), t.payment),
       InterestLine(t.payment, x.loanAmount, t.interest)]
    else []
  }

  /** The closing line for the chosen rate convention. */
  function RateLines(x: LoanInput, pow: (real, real) -> real): seq<StepKind>
    requires Computable(x)
  {
    if x.interestType == Simple then
      [SimpleRateLine(TotalCost(x), x.actualReceived, Years(x), SimpleInterestRate(x))]
    else if Years(x) > 0.0 then
      [CompoundRateLine(FinalTotals(x).payment, TotalFees(x), x.actualReceived, Years(x), CompoundInterestRate(x, pow))]
    else []
  }

  /** Lines 1 to 5: the inputs, the schedule, the payment-type totals and the fees. */
  function HeadLines(x: LoanInput): seq<StepKind>
  {
    [BasicsLine(x.loanAmount, x.actualReceived),
     FrequencyLine(x.paymentFrequency, x.paymentAmount, x.totalPeriods)]
    + PaymentTypeLines(x)
    + [FeesLine(x.loanAmount, x.actualReceived, TotalFees(x))]
  }

  /** The four lines after the fees and any grace lines: cost, term, average annual cost and APR. */
  function CostLines(x: LoanInput): seq<StepKind>
    requires Computable(x)
  {
    [CostLine(FinalTotals(x).interest, TotalFees(x), TotalCost(x)),
     YearsLine(x.totalPeriods, PeriodsPerYear(x.paymentFrequency), Years(x)),
     AnnualCostLine(TotalCost(x), Years(x), AverageAnnualCost(x)),
     AprLine(AverageAnnualCost(x), x.actualReceived, Apr(x))]
  }

  /** The explanation's lines in derivation order. */
  function Kinds(x: LoanInput, pow: (real, real) -> real): seq<StepKind>
    requires Computable(x)
  {
    HeadLines(x) + GraceLines(x) + CostLines(x) + RateLines(x, pow)
  }

  /** The numbered explanation of a computable form. */
  function Explanation(x: LoanInput, pow: (real, real) -> real): seq<Step>
    requires Computable(x)
  {
    Numbered(Kinds(x, pow))
  }

  /** The result `calculateAPR` must publish for a form. */
  function Expected(x: LoanInput, pow: (real, real) -> real): Option<RateResult>
  {
    if !Computable(x) then None
    else
      var c := Reference(Apr(x));
      Some(RateResult(
        FinalTotals(x).interest, TotalFees(x), TotalCost(x), FinalTotals(x).payment,
        Apr(x), SimpleInterestRate(x), CompoundInterestRate(x, pow),
        c.message, c.level, c.violatedLaws,
        Years(x), x.totalPeriods, Explanation(x, pow)))
  }

  /**
   * The payment-type switch of `calculateAPR`: the totals before any grace
   * override, and explanation lines 3 and 4.
   */
  method PaymentTypeTotals(x: LoanInput, before: seq<Step>) returns (totalPayment: real, totalInterest: real, after: seq<Step>)
    ensures Totals(totalPayment, totalInterest) == BaseTotals(x)
    ensures after == before + NumberedFrom(PaymentTypeLines(x), 3)
  {
    after := before;
    match x.paymentType {
      case PrincipalInterest =>
        totalPayment := x.paymentAmount * x.totalPeriods as real;
        totalInterest := totalPayment - x.loanAmount;
        after := after + [Step(3, PaymentTypeLine(PrincipalInterest, x.paymentAmount, x.totalPeriods, totalPayment))];
        after := after + [Step(4, InterestLine(totalPayment, x.loanAmount, totalInterest))];
      case InterestOnly =>
        totalPayment := x.paymentAmount * x.totalPeriods as real + x.actualReceived;
        totalInterest := x.paymentAmount * x.totalPeriods as real;
        after := after + [Step(3, PaymentTypeLine(InterestOnly, x.paymentAmount, x.totalPeriods, totalInterest))];
        after := after + [Step(4, TotalPaymentLine(totalInterest, x.loanAmount, totalPayment))];
      case PrincipalOnly =>
        totalPayment := x.paymentAmount * x.totalPeriods as real;
        totalInterest := totalPayment - x.loanAmount;
        after := after + [Step(3, PaymentTypeLine(PrincipalOnly, x.paymentAmount, x.totalPeriods, totalPayment))];
        after := after + [Step(4, InterestLine(totalPayment, x.loanAmount, totalInterest))];
    }
  }

  /**
   * The grace-period block: when the box is ticked and the count is positive,
   * the totals are recomputed from the grace interest and the regular
   * repayment, and lines 6 to 9 are added; otherwise nothing changes.
   */
  method ApplyGracePeriod(x: LoanInput, totalPayment: real, totalInterest: real, before: seq<Step>)
    returns (payment: real, interest: real, after: seq<Step>)
    ensures Totals(payment, interest) == if GraceActive(x) then GraceTotals(x) else Totals(totalPayment, totalInterest)
    ensures after == before + NumberedFrom(GraceLines(x), 6)
  {
    payment, interest, after := totalPayment, totalInterest, before;
    if x.hasGracePeriod && x.gracePeriod > 0 {
      var regularPeriods := x.totalPeriods - x.gracePeriod;
      var gracePeriodInterest := x.paymentAmount * x.gracePeriod as real;
      var regularPayment :=
        if x.paymentType == PrincipalInterest then x.paymentAmount * regularPeriods as real
        else x.loanAmount + x.paymentAmount * regularPeriods as real;
      payment := gracePeriodInterest + regularPayment;
      interest := payment - x.loanAmount;
      after := after + [Step(6, GraceInterestLine(x.gracePeriod, gracePeriodInterest))];
      after := after + [Step(7, RegularRepaymentLine(regularPeriods, regularPayment))];
      after := after + [Step(8, GraceTotalLine(gracePeriodInterest, regularPayment, payment))];
      after := after + [Step(9, InterestLine(payment, x.loanAmount, interest))];
      assert gracePeriodInterest == GracePeriodInterest(x) && regularPayment == RegularPayment(x);
      assert after == before + NumberedFrom(GraceLines(x), 6);
    } else {
      assert NumberedFrom(GraceLines(x), 6) == [];
    }
  }

  /**
   * The rate block: the simple annual rate, or the compound one when the term
   * is positive, and the explanation's closing line numbered `nextStep + 4`.
   */
  method AnnualRates(x: LoanInput, pow: (real, real) -> real, totalCost: real, totalPayment: real, totalFees: real,
                     years: real, nextStep: int, before: seq<Step>)
    returns (simpleInterestRate: real, compoundInterestRate: real, after: seq<Step>)
    requires Computable(x)
    requires totalCost == TotalCost(x) && totalPayment == FinalTotals(x).payment
    requires totalFees == TotalFees(x) && years == Years(x)
    ensures simpleInterestRate == SimpleInterestRate(x) && compoundInterestRate == CompoundInterestRate(x, pow)
    ensures after == before + NumberedFrom(RateLines(x, pow), nextStep + 4)
  {
    simpleInterestRate, compoundInterestRate, after := 0.0, 0.0, before;
    if x.interestType == Simple {
      simpleInterestRate := totalCost / x.actualReceived / years * 100.0;
      after := after + [Step(nextStep + 4, SimpleRateLine(totalCost, x.actualReceived, years, simpleInterestRate))];
    } else {
      if years > 0.0 {
        compoundInterestRate := (pow((totalPayment + totalFees) / x.actualReceived, 1.0 / years) - 1.0) * 100.0;
        after := after + [Step(nextStep + 4,
          CompoundRateLine(totalPayment, totalFees, x.actualReceived, years, compoundInterestRate))];
      }
    }
  }

  /**
   * `calculateAPR`: no result unless the four required amounts are positive;
   * otherwise exactly the totals, rates, warning and numbered explanation the
   * reference functions give.
   */
  method CalculateApr(x: LoanInput, pow: (real, real) -> real) returns (r: Option<RateResult>)
    ensures r.Some? <==> x.loanAmount > 0.0 && x.actualReceived > 0.0 && x.paymentAmount > 0.0 && x.totalPeriods > 0
    ensures r == Expected(x, pow)
  {
    if x.loanAmount <= 0.0 || x.actualReceived <= 0.0 || x.paymentAmount <= 0.0 || x.totalPeriods <= 0 {
      return None;
    }

    var totalInterest := 0.0;
    var totalPayment := 0.0;
    var effectivePeriods := x.totalPeriods;
    var steps: seq<Step> := [];

    var periodsPerYear := PeriodsPerYear(x.paymentFrequency);
    var years := x.totalPeriods as real / periodsPerYear as real;
    assert years == Years(x);

    steps := steps + [Step(1, BasicsLine(x.loanAmount, x.actualReceived))];
    steps := steps + [Step(2, FrequencyLine(x.paymentFrequency, x.paymentAmount, x.totalPeriods))];

    totalPayment, totalInterest, steps := PaymentTypeTotals(x, steps);

    var totalFees := x.loanAmount - x.actualReceived;
    steps := steps + [Step(5, FeesLine(x.loanAmount, x.actualReceived, totalFees))];
    assert steps == NumberedFrom(HeadLines(x), 1);
    ghost var head := steps;

    totalPayment, totalInterest, steps := ApplyGracePeriod(x, totalPayment, totalInterest, steps);
    ghost var body := steps;

    var totalCost := totalInterest + totalFees;
    var nextStep := if x.hasGracePeriod && x.gracePeriod > 0 then 10 else 6;
    steps := steps + [Step(nextStep, CostLine(totalInterest, totalFees, totalCost))];

    var averageAnnualCost := totalCost / years;
    var apr := averageAnnualCost / x.actualReceived * 100.0;
    steps := steps + [Step(nextStep + 1, YearsLine(x.totalPeriods, periodsPerYear, years))];
    steps := steps + [Step(nextStep + 2, AnnualCostLine(totalCost, years, averageAnnualCost))];
    steps := steps + [Step(nextStep + 3, AprLine(averageAnnualCost, x.actualReceived, apr))];
    assert apr == Apr(x);
    assert steps == body + NumberedFrom(CostLines(x), nextStep);
    ghost var costs := steps;

    var simpleInterestRate, compoundInterestRate;
    simpleInterestRate, compoundInterestRate, steps :=
      AnnualRates(x, pow, totalCost, totalPayment, totalFees, years, nextStep, steps);

    NumberedSplit(HeadLines(x), GraceLines(x), 1);
    NumberedSplit(HeadLines(x) + GraceLines(x), CostLines(x), 1);
    NumberedSplit(HeadLines(x) + GraceLines(x) + CostLines(x), RateLines(x, pow), 1);

    var c := Classify(apr);

    r := Some(RateResult(
      totalInterest, totalFees, totalCost, totalPayment,
      apr, simpleInterestRate, compoundInterestRate,
      c.message, c.level, c.violatedLaws,
      years, effectivePeriods, steps));
  }

  /**
   * The explanation has 10 lines, or 14 with the grace override, numbered
   * 1, 2, 3, ... without gaps, in the fixed derivation order.
   */
  lemma TraceShape(x: LoanInput, pow: (real, real) -> real)
    requires Computable(x)
    ensures var steps := Explanation(x, pow);
      |steps| == (if GraceActive(x) then 14 else 10)
      && (forall i :: 0 <= i < |steps| ==> steps[i].number == i + 1)
      && steps[0].kind.BasicsLine? && steps[1].kind.FrequencyLine? && steps[2].kind.PaymentTypeLine?
      && (steps[3].kind.InterestLine? || steps[3].kind.TotalPaymentLine?) && steps[4].kind.FeesLine?
      && (GraceActive(x) ==>
            steps[5].kind.GraceInterestLine? && steps[6].kind.RegularRepaymentLine?
            && steps[7].kind.GraceTotalLine? && steps[8].kind.InterestLine?)
      && var m := |steps| - 5;
      steps[m].kind.CostLine? && steps[m + 1].kind.YearsLine? && steps[m + 2].kind.AnnualCostLine?
      && steps[m + 3].kind.AprLine? && (steps[m + 4].kind.SimpleRateLine? || steps[m + 4].kind.CompoundRateLine?)
  {
    var head, grace, costs, rate := HeadLines(x), GraceLines(x), CostLines(x), RateLines(x, pow);
    assert |rate| == 1;
    var kinds := head + grace + costs + rate;
    assert Kinds(x, pow) == kinds;
    var m := |head| + |grace|;
    assert kinds[m] == costs[0] && kinds[m + 3] == costs[3] && kinds[m + 4] == rate[0];
    if GraceActive(x) {
      assert kinds[5] == grace[0] && kinds[8] == grace[3];
    }
  }

  /**
   * Every equation the explanation displays is true, except line 4 for an
   * interest-only loan: it reads "total payment = total interest + loan
   * amount" while the payment was computed with the amount received.
   */
  lemma TraceConsistency(x: LoanInput, pow: (real, real) -> real)
    requires Computable(x)
    ensures AllHold(KindsOf(Explanation(x, pow)), pow) <==> !(x.paymentType == InterestOnly && x.loanAmount != x.actualReceived)
  {
    var head, grace, costs, rate := HeadLines(x), GraceLines(x), CostLines(x), RateLines(x, pow);
    KindsOfNumbered(Kinds(x, pow), 1);
    AllHoldConcat(head, grace, pow);
    AllHoldConcat(head + grace, costs, pow);
    AllHoldConcat(head + grace + costs, rate, pow);
    HeadLinesHold(x, pow);
    GraceLinesHold(x, pow);
    CostLinesHold(x, pow);
    RateLinesHold(x, pow);
  }

  lemma HeadLinesHold(x: LoanInput, pow: (real, real) -> real)
    ensures AllHold(HeadLines(x), pow) <==> !(x.paymentType == InterestOnly && x.loanAmount != x.actualReceived)
  {
    var head := HeadLines(x);
    assert head[2] == PaymentTypeLines(x)[0] && head[3] == PaymentTypeLines(x)[1];
  }

  lemma GraceLinesHold(x: LoanInput, pow: (real, real) -> real)
    ensures AllHold(GraceLines(x), pow)
  {
  }

  lemma CostLinesHold(x: LoanInput, pow: (real, real) -> real)
    requires Computable(x)
    ensures AllHold(CostLines(x), pow)
  {
  }

  lemma RateLinesHold(x: LoanInput, pow: (real, real) -> real)
    requires Computable(x)
    ensures AllHold(RateLines(x, pow), pow)
  {
  }

  /** Line 4 of an interest-only loan: what the code adds, and what the line claims it added. */
  lemma InterestOnlyTraceGap(x: LoanInput, pow: (real, real) -> real)
    requires Computable(x) && x.paymentType == InterestOnly
    ensures Explanation(x, pow)[3] == Step(4, TotalPaymentLine(Scheduled(x), x.loanAmount, BaseTotals(x).payment))
      && BaseTotals(x).payment == Scheduled(x) + x.actualReceived
      && (BaseTotals(x).payment == Scheduled(x) + x.loanAmount <==> x.loanAmount == x.actualReceived)
  {
    assert Kinds(x, pow)[3] == PaymentTypeLines(x)[1];
  }

  /**
   * A form without an active grace period gives the same result whatever
   * its grace count says: a missing or non-positive count only disables the override.
   */
  lemma InactiveGraceIgnored(x: LoanInput, pow: (real, real) -> real, g: int)
    requires !GraceActive(x)
    ensures Expected(x, pow) == Expected(x.(hasGracePeriod := false, gracePeriod := g), pow)
  {
    var y := x.(hasGracePeriod := false, gracePeriod := g);
    if Computable(x) {
      SameKindsWithoutGrace(x, y, pow);
      assert Explanation(x, pow) == Explanation(y, pow);
    }
  }

  lemma SameKindsWithoutGrace(x: LoanInput, y: LoanInput, pow: (real, real) -> real)
    requires Computable(x) && !GraceActive(x) && !GraceActive(y)
    requires y == x.(hasGracePeriod := y.hasGracePeriod, gracePeriod := y.gracePeriod)
    ensures Kinds(x, pow) == Kinds(y, pow) && FinalTotals(x) == FinalTotals(y)
    ensures TotalCost(x) == TotalCost(y) && Years(x) == Years(y) && Apr(x) == Apr(y)
    ensures SimpleInterestRate(x) == SimpleInterestRate(y) && CompoundInterestRate(x, pow) == CompoundInterestRate(y, pow)
  {
    assert FinalTotals(x) == FinalTotals(y);
    assert TotalCost(x) == TotalCost(y);
    assert Years(x) == Years(y);
    assert AverageAnnualCost(x) == AverageAnnualCost(y);
    assert CompoundGrowth(x) == CompoundGrowth(y);
    assert HeadLines(x) == HeadLines(y);
    assert CostLines(x) == CostLines(y);
    assert RateLines(x, pow) == RateLines(y, pow);
  }

  /**
   * A 100 000 loan of which 95 000 is paid out, repaid by twelve monthly
   * payments of 10 000: cost 25 000 over one year, an APR of 500/19 (about
   * 26.32%), above the Civil Code and Banking Act ceilings but not the
   * Pawnshop Act's.
   */
  lemma WorkedExample(pow: (real, real) -> real)
    ensures var x := LoanInput(100000.0, 95000.0, 10000.0, 12, Monthly, PrincipalInterest, false, 0, Simple);
      var r := Expected(x, pow);
      r.Some? && r.value.totalPayment == 120000.0 && r.value.totalInterest == 20000.0
      && r.value.totalFees == 5000.0 && r.value.totalCost == 25000.0 && r.value.years == 1.0
      && r.value.apr == 500.0 / 19.0 && r.value.simpleInterestRate == r.value.apr
      && r.value.warningLevel == High && r.value.warningMessage == ExceedsCap(CivilCodeArt205)
      && r.value.violatedLaws == [CivilCodeArt205, BankingActArt47_1]
  {
    var x := LoanInput(100000.0, 95000.0, 10000.0, 12, Monthly, PrincipalInterest, false, 0, Simple);
    assert Years(x) == 1.0;
    assert Apr(x) == 500.0 / 19.0;
    ViolatedLawsByBand(500.0 / 19.0);
  }

  /** Scaling every amount by a positive factor leaves the warning unchanged. */
  lemma ClassificationScaleInvariant(x: LoanInput, k: real, pow: (real, real) -> real)
    requires Computable(x) && k > 0.0
    ensures Expected(Scaled(x, k), pow).Some?
    ensures Expected(Scaled(x, k), pow).value.warningLevel == Expected(x, pow).value.warningLevel
    ensures Expected(Scaled(x, k), pow).value.violatedLaws == Expected(x, pow).value.violatedLaws
    ensures Expected(Scaled(x, k), pow).value.apr == Expected(x, pow).value.apr
  {
    AprScaleInvariant(x, k);
  }
}
