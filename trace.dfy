/**
 * The numbered explanation `calculateAPR` builds: one line per derived
 * quantity, carrying the values it interpolates. The wording of each line is
 * not modelled; its kind and its numbers are.
 */
module Trace {

  import opened Loan

  datatype StepKind =
    | BasicsLine(loanAmount: real, actualReceived: real)
    | FrequencyLine(frequency: Frequency, paymentAmount: real, totalPeriods: int)
      /** Line 3: the scheduled total, read as the total payment (or, for interest-only, the total interest). */
    | PaymentTypeLine(paymentType: PaymentType, paymentAmount: real, totalPeriods: int, total: real)
      /** "total interest = total payment − loan amount" */
    | InterestLine(totalPayment: real, loanAmount: real, totalInterest: real)
      /** "total payment = total interest + loan amount" */
    | TotalPaymentLine(totalInterest: real, loanAmount: real, totalPayment: real)
    | FeesLine(loanAmount: real, actualReceived: real, totalFees: real)
    | GraceInterestLine(gracePeriod: int, graceInterest: real)
    | RegularRepaymentLine(regularPeriods: int, regularPayment: real)
    | GraceTotalLine(graceInterest: real, regularPayment: real, totalPayment: real)
    | CostLine(totalInterest: real, totalFees: real, totalCost: real)
    | YearsLine(totalPeriods: int, periodsPerYear: int, years: real)
    | AnnualCostLine(totalCost: real, years: real, averageAnnualCost: real)
    | AprLine(averageAnnualCost: real, actualReceived: real, apr: real)
    | SimpleRateLine(totalCost: real, actualReceived: real, years: real, rate: real)
    | CompoundRateLine(totalPayment: real, totalFees: real, actualReceived: real, years: real, rate: real)

  /** A line of the explanation: its displayed number and what it says. */
  datatype Step = Step(number: int, kind: StepKind)

  /** The lines `kinds` numbered `first`, `first + 1`, ... in order. */
  function NumberedFrom(kinds: seq<StepKind>, first: int): (steps: seq<Step>)
    ensures |steps| == |kinds|
    ensures forall i :: 0 <= i < |kinds| ==> steps[i] == Step(first + i, kinds[i])
  {
    seq(|kinds|, i requires 0 <= i < |kinds| => Step(first + i, kinds[i]))
  }

  /** The lines `kinds` numbered 1, 2, 3, ... in order. */
  function Numbered(kinds: seq<StepKind>): seq<Step>
  {
    NumberedFrom(kinds, 1)
  }

  /** Numbering a concatenation continues where the first part stops. */
  lemma NumberedSplit(a: seq<StepKind>, b: seq<StepKind>, first: int)
    ensures NumberedFrom(a + b, first) == NumberedFrom(a, first) + NumberedFrom(b, first + |a|)
  {
    var l, r := NumberedFrom(a + b, first), NumberedFrom(a, first) + NumberedFrom(b, first + |a|);
    assert |l| == |r|;
    forall i | 0 <= i < |l| ensures l[i] == r[i] {
      if i >= |a| {
        assert r[i] == NumberedFrom(b, first + |a|)[i - |a|];
      }
    }
  }

  /** The equation a line displays is true of the numbers it displays. */
  predicate Holds(k: StepKind, pow: (real, real) -> real)
  {
    match k
    case BasicsLine(_, _) => true
    case FrequencyLine(_, _, _) => true
    case PaymentTypeLine(_, p, n, total) => total == p * n as real
    case InterestLine(payment, loan, interest) => interest == payment - loan
    case TotalPaymentLine(interest, loan, payment) => payment == interest + loan
    case FeesLine(loan, received, fees) => fees == loan - received
    case GraceInterestLine(_, _) => true
    case RegularRepaymentLine(_, _) => true
    case GraceTotalLine(graceInterest, regular, payment) => payment == graceInterest + regular
    case CostLine(interest, fees, cost) => cost == interest + fees
    case YearsLine(n, perYear, years) => perYear != 0 && years == n as real / perYear as real
    case AnnualCostLine(cost, years, average) => years != 0.0 && average == cost / years
    case AprLine(average, received, apr) => received != 0.0 && apr == average / received * 100.0
    case SimpleRateLine(cost, received, years, rate) =>
      received != 0.0 && years != 0.0 && rate == cost / received / years * 100.0
    case CompoundRateLine(payment, fees, received, years, rate) =>
      received != 0.0 && years != 0.0 && rate == (pow((payment + fees) / received, 1.0 / years) - 1.0) * 100.0
  }

  /** Every line of `kinds` states a true equation. */
  predicate AllHold(kinds: seq<StepKind>, pow: (real, real) -> real)
  {
    forall i :: 0 <= i < |kinds| ==> Holds(kinds[i], pow)
  }

  /** What the lines of `steps` say, without their numbers. */
  function KindsOf(steps: seq<Step>): seq<StepKind>
  {
    seq(|steps|, i requires 0 <= i < |steps| => steps[i].kind)
  }

  /** Numbering lines and then dropping the numbers gives back the lines. */
  lemma KindsOfNumbered(kinds: seq<StepKind>, first: int)
    ensures KindsOf(NumberedFrom(kinds, first)) == kinds
  {
    var back := KindsOf(NumberedFrom(kinds, first));
    assert |back| == |kinds|;
    forall i | 0 <= i < |kinds| ensures back[i] == kinds[i] {
      assert NumberedFrom(kinds, first)[i] == Step(first + i, kinds[i]);
    }
  }

  lemma AllHoldConcat(a: seq<StepKind>, b: seq<StepKind>, pow: (real, real) -> real)
    ensures AllHold(a + b, pow) <==> AllHold(a, pow) && AllHold(b, pow)
  {
    if AllHold(a, pow) && AllHold(b, pow) {
      forall i | 0 <= i < |a + b| ensures Holds((a + b)[i], pow) {
        if i >= |a| {
          assert (a + b)[i] == b[i - |a|];
        }
      }
    }
    if AllHold(a + b, pow) {
      forall i | 0 <= i < |a| ensures Holds(a[i], pow) {
        assert (a + b)[i] == a[i];
      }
      forall i | 0 <= i < |b| ensures Holds(b[i], pow) {
        assert (a + b)[|a| + i] == b[i];
      }
    }
  }
}
