/** The ROI engine (App.tsx, lines 62-117): current-state costs, the five
    gated gains and the ROI summary, as a pure function of the business inputs,
    the model assumptions and the resolved selection. Arithmetic is exact. */
module RoiEngine {
  import opened Types
  import opened Resolver

  /** The 35% haircut applied to every gain estimate. */
  const ConservativeFactor: real := 0.65

  /** A whole percentage as a fraction. */
  function Fraction(percent: real): real {
    percent / 100.0
  }

  /** `Math.max`. */
  function Max(a: real, b: real): (m: real)
    ensures m >= a && m >= b && (m == a || m == b)
  {
    if a >= b then a else b
  }

  // Section 1 of the report: what the current way of working costs a month.

  /** Hours of scheduling a month (four weeks) at the hourly rate. */
  function LaborCostScheduling(inputs: CalculatorInputs): real {
    (inputs.schedulingTime * 4.0) * inputs.hourlyRate
  }

  /** Missed calls of four weeks that nobody calls back and that would have booked. */
  function LostBookings(inputs: CalculatorInputs, assumptions: ModelAssumptions): real {
    (inputs.missedCallsPerWeek * 4.0) * (1.0 - Fraction(assumptions.voicemailCallbackRate))
      * Fraction(assumptions.callToBookingRate) * inputs.avgJobValue
  }

  function LostRevenueNoShows(inputs: CalculatorInputs): real {
    inputs.monthlyBookings * Fraction(inputs.noShowRate) * inputs.avgJobValue
  }

  /** Revenue forgone by converting below the target rate; never below 0. */
  function OpportunityCost(inputs: CalculatorInputs, assumptions: ModelAssumptions): real {
    assumptions.monthlyLeads
      * Max(0.0, Fraction(assumptions.targetConversionRate) - Fraction(inputs.conversionRate))
      * inputs.avgJobValue
  }

  // Section 2: the gains, each 0 unless its category is active.

  function TimeSavingsGain(inputs: CalculatorInputs, assumptions: ModelAssumptions, activeGains: set<Gain>): real {
    if TimeSavings in activeGains
    then (LaborCostScheduling(inputs) * Fraction(assumptions.schedulingTimeReduction)) * ConservativeFactor
    else 0.0
  }

  function CallsCapturedGain(inputs: CalculatorInputs, assumptions: ModelAssumptions, activeGains: set<Gain>): real {
    if CallsCaptured in activeGains
    then ((inputs.missedCallsPerWeek * 4.0 * inputs.avgJobValue * Fraction(assumptions.callToBookingRate))
          * (Fraction(assumptions.serviceProCaptureRate) - Fraction(assumptions.voicemailCallbackRate)))
         * ConservativeFactor
    else 0.0
  }

  function NoShowReductionGain(inputs: CalculatorInputs, assumptions: ModelAssumptions, activeGains: set<Gain>): real {
    if NoShowReduction in activeGains
    then (inputs.monthlyBookings
          * Max(0.0, Fraction(inputs.noShowRate) - Fraction(assumptions.targetNoShowRate))
          * inputs.avgJobValue) * ConservativeFactor
    else 0.0
  }

  function ConversionLiftGain(inputs: CalculatorInputs, assumptions: ModelAssumptions, activeGains: set<Gain>): real {
    if ConversionLift in activeGains
    then (assumptions.monthlyLeads
          * ((Fraction(inputs.conversionRate) * (1.0 + Fraction(assumptions.conversionLift)))
             - Fraction(inputs.conversionRate))
          * inputs.avgJobValue) * ConservativeFactor
    else 0.0
  }

  function AfterHoursBookingsGain(inputs: CalculatorInputs, assumptions: ModelAssumptions, activeGains: set<Gain>)
    : real
  {
    if AfterHoursBookings in activeGains
    then (inputs.monthlyBookings * Fraction(assumptions.afterHoursBookingRate) * inputs.avgJobValue)
         * ConservativeFactor
    else 0.0
  }

  // Section 3: the ROI summary. Each division is guarded by the condition
  // that makes its divisor non-zero, which Dafny checks.

  /** The gain less the recurring cost and the one-time cost spread over twelve months. */
  function NetMonthlyProfit(totalMonthlyGain: real, monthlyCost: real, oneTimeCost: real): real {
    totalMonthlyGain - (monthlyCost + oneTimeCost / 12.0)
  }

  function RoiPercentage(totalMonthlyGain: real, monthlyCost: real): real {
    if monthlyCost > 0.0 then ((totalMonthlyGain - monthlyCost) / monthlyCost) * 100.0 else 0.0
  }

  function PaybackPeriodDays(totalMonthlyGain: real, oneTimeCost: real): real {
    if oneTimeCost > 0.0 && totalMonthlyGain > 0.0 then oneTimeCost / (totalMonthlyGain / 30.0) else 0.0
  }

  function BreakEvenBookings(avgJobValue: real, monthlyCost: real, oneTimeCost: real): real {
    if avgJobValue > 0.0 then (monthlyCost + oneTimeCost) / avgJobValue else 0.0
  }

  /** The report for one set of inputs, assumptions and resolved selection: the
      totals add up their parts, and a gain whose category is not active is 0. */
  function Calculate(inputs: CalculatorInputs, assumptions: ModelAssumptions, resolved: Resolution)
    : (r: CalculatedOutputs)
    ensures forall g :: g !in resolved.activeGains ==> r.GainFor(g) == 0.0
    ensures r.totalCurrentCost == r.laborCostScheduling + r.lostBookings + r.lostRevenueNoShows + r.opportunityCost
    ensures r.totalMonthlyGain == r.timeSavingsGain + r.callsCapturedGain + r.noShowReductionGain
                                + r.conversionLiftGain + r.afterHoursBookingsGain
    ensures r.monthlyServiceProCost == resolved.monthlyCost && r.oneTimeServiceProCost == resolved.oneTimeCost
  {
    var active := resolved.activeGains;
    var laborCostScheduling := LaborCostScheduling(inputs);
    var lostBookings := LostBookings(inputs, assumptions);
    var lostRevenueNoShows := LostRevenueNoShows(inputs);
    var opportunityCost := OpportunityCost(inputs, assumptions);
    var timeSavingsGain := TimeSavingsGain(inputs, assumptions, active);
    var callsCapturedGain := CallsCapturedGain(inputs, assumptions, active);
    var noShowReductionGain := NoShowReductionGain(inputs, assumptions, active);
    var conversionLiftGain := ConversionLiftGain(inputs, assumptions, active);
    var afterHoursBookingsGain := AfterHoursBookingsGain(inputs, assumptions, active);
    var totalMonthlyGain :=
      timeSavingsGain + callsCapturedGain + noShowReductionGain + conversionLiftGain + afterHoursBookingsGain;
    CalculatedOutputs(
      currentMonthlyRevenue := inputs.monthlyBookings * inputs.avgJobValue,
      laborCostScheduling := laborCostScheduling,
      lostBookings := lostBookings,
      lostRevenueNoShows := lostRevenueNoShows,
      opportunityCost := opportunityCost,
      totalCurrentCost := laborCostScheduling + lostBookings + lostRevenueNoShows + opportunityCost,
      timeSavingsGain := timeSavingsGain,
      callsCapturedGain := callsCapturedGain,
      noShowReductionGain := noShowReductionGain,
      conversionLiftGain := conversionLiftGain,
      afterHoursBookingsGain := afterHoursBookingsGain,
      totalMonthlyGain := totalMonthlyGain,
      monthlyServiceProCost := resolved.monthlyCost,
      oneTimeServiceProCost := resolved.oneTimeCost,
      netMonthlyProfit := NetMonthlyProfit(totalMonthlyGain, resolved.monthlyCost, resolved.oneTimeCost),
      roiPercentage := RoiPercentage(totalMonthlyGain, resolved.monthlyCost),
      paybackPeriodDays := PaybackPeriodDays(totalMonthlyGain, resolved.oneTimeCost),
      breakEvenBookings := BreakEvenBookings(inputs.avgJobValue, resolved.monthlyCost, resolved.oneTimeCost))
  }

  /** The ROI percentage is the return on the recurring cost: with a positive
      monthly cost, that cost grown by the ROI equals the monthly gain; otherwise
      the ROI is 0. The one-time cost plays no part. */
  lemma RoiPercentageMeaning(totalMonthlyGain: real, monthlyCost: real)
    ensures monthlyCost > 0.0 ==>
      monthlyCost * (1.0 + RoiPercentage(totalMonthlyGain, monthlyCost) / 100.0) == totalMonthlyGain
    ensures monthlyCost <= 0.0 ==> RoiPercentage(totalMonthlyGain, monthlyCost) == 0.0
  {
    if monthlyCost > 0.0 {
      var q := (totalMonthlyGain - monthlyCost) / monthlyCost;
      assert q * monthlyCost == totalMonthlyGain - monthlyCost;
    }
  }

  /** The payback period is the number of days of gain, at the monthly gain
      spread over 30 days, that repays the one-time cost; it is 0 unless both the
      one-time cost and the monthly gain are positive. */
  lemma PaybackMeaning(totalMonthlyGain: real, oneTimeCost: real)
    ensures oneTimeCost > 0.0 && totalMonthlyGain > 0.0 ==>
      && PaybackPeriodDays(totalMonthlyGain, oneTimeCost) > 0.0
      && PaybackPeriodDays(totalMonthlyGain, oneTimeCost) * (totalMonthlyGain / 30.0) == oneTimeCost
    ensures !(oneTimeCost > 0.0 && totalMonthlyGain > 0.0) ==> PaybackPeriodDays(totalMonthlyGain, oneTimeCost) == 0.0
  {
    if oneTimeCost > 0.0 && totalMonthlyGain > 0.0 {
      var daily := totalMonthlyGain / 30.0;
      assert daily > 0.0;
      assert PaybackPeriodDays(totalMonthlyGain, oneTimeCost) == oneTimeCost / daily;
    }
  }

  /** Break-even bookings is the number of jobs at the average job value that
      pays for the monthly plus the one-time cost; 0 when the job value is not positive. */
  lemma BreakEvenMeaning(avgJobValue: real, monthlyCost: real, oneTimeCost: real)
    ensures avgJobValue > 0.0 ==>
      BreakEvenBookings(avgJobValue, monthlyCost, oneTimeCost) * avgJobValue == monthlyCost + oneTimeCost
    ensures avgJobValue <= 0.0 ==> BreakEvenBookings(avgJobValue, monthlyCost, oneTimeCost) == 0.0
  {
  }

  /** A year of net monthly profit plus the one-time cost is a year of gain less
      a year of recurring cost: the one-time cost is spread evenly over twelve months. */
  lemma NetProfitMeaning(totalMonthlyGain: real, monthlyCost: real, oneTimeCost: real)
    ensures 12.0 * NetMonthlyProfit(totalMonthlyGain, monthlyCost, oneTimeCost) + oneTimeCost
         == 12.0 * (totalMonthlyGain - monthlyCost)
  {
  }

  lemma ProductNonNegative(a: real, b: real, c: real)
    requires a >= 0.0 && b >= 0.0 && c >= 0.0
    ensures a * b * c >= 0.0
  {
    assert a * b >= 0.0;
  }

  /** The opportunity cost is floored: with non-negative leads and job value it
      is never negative, even when the current conversion rate beats the target. */
  lemma OpportunityCostNonNegative(inputs: CalculatorInputs, assumptions: ModelAssumptions)
    requires assumptions.monthlyLeads >= 0.0 && inputs.avgJobValue >= 0.0
    ensures OpportunityCost(inputs, assumptions) >= 0.0
  {
    var gap := Max(0.0, Fraction(assumptions.targetConversionRate) - Fraction(inputs.conversionRate));
    ProductNonNegative(assumptions.monthlyLeads, gap, inputs.avgJobValue);
  }

  /** The no-show gain is floored the same way: never negative with non-negative
      bookings and job value. */
  lemma NoShowGainNonNegative(inputs: CalculatorInputs, assumptions: ModelAssumptions, activeGains: set<Gain>)
    requires inputs.monthlyBookings >= 0.0 && inputs.avgJobValue >= 0.0
    ensures NoShowReductionGain(inputs, assumptions, activeGains) >= 0.0
  {
    var gap := Max(0.0, Fraction(inputs.noShowRate) - Fraction(assumptions.targetNoShowRate));
    ProductNonNegative(inputs.monthlyBookings, gap, inputs.avgJobValue);
  }

  /** The calls-captured gain is not floored: when active, with positive missed
      calls, job value and call-to-booking rate, it is negative exactly when the
      capture rate is below the callback rate. */
  lemma CallsCapturedSign(inputs: CalculatorInputs, assumptions: ModelAssumptions, activeGains: set<Gain>)
    requires CallsCaptured in activeGains
    requires inputs.missedCallsPerWeek > 0.0 && inputs.avgJobValue > 0.0 && assumptions.callToBookingRate > 0.0
    ensures CallsCapturedGain(inputs, assumptions, activeGains) < 0.0
        <==> assumptions.serviceProCaptureRate < assumptions.voicemailCallbackRate
  {
    var base := inputs.missedCallsPerWeek * 4.0 * inputs.avgJobValue * Fraction(assumptions.callToBookingRate);
    assert inputs.missedCallsPerWeek * 4.0 > 0.0;
    assert inputs.missedCallsPerWeek * 4.0 * inputs.avgJobValue > 0.0;
    assert base > 0.0;
    var spread := Fraction(assumptions.serviceProCaptureRate) - Fraction(assumptions.voicemailCallbackRate);
    assert CallsCapturedGain(inputs, assumptions, activeGains) == (base * spread) * ConservativeFactor;
    if spread < 0.0 {
      assert base * spread < 0.0;
    } else {
      assert base * spread >= 0.0;
    }
  }

  /** When active, the conversion-lift gain is the extra conversions the lift
      brings on the monthly leads, at the job value, after the haircut. */
  lemma ConversionLiftClosedForm(inputs: CalculatorInputs, assumptions: ModelAssumptions, activeGains: set<Gain>)
    requires ConversionLift in activeGains
    ensures ConversionLiftGain(inputs, assumptions, activeGains)
         == assumptions.monthlyLeads * Fraction(inputs.conversionRate) * Fraction(assumptions.conversionLift)
            * inputs.avgJobValue * ConservativeFactor
  {
    var c := Fraction(inputs.conversionRate);
    var l := Fraction(assumptions.conversionLift);
    assert c * (1.0 + l) - c == c * l;
  }

  /** What the four summary figures mean, for any gain and costs. */
  predicate SummaryHolds(gain: real, monthly: real, oneTime: real, avgJobValue: real,
                         roi: real, payback: real, breakEven: real, net: real)
  {
    && (monthly > 0.0 ==> monthly * (1.0 + roi / 100.0) == gain)
    && (monthly <= 0.0 ==> roi == 0.0)
    && (oneTime > 0.0 && gain > 0.0 ==> payback > 0.0 && payback * (gain / 30.0) == oneTime)
    && (!(oneTime > 0.0 && gain > 0.0) ==> payback == 0.0)
    && (avgJobValue > 0.0 ==> breakEven * avgJobValue == monthly + oneTime)
    && (avgJobValue <= 0.0 ==> breakEven == 0.0)
    && 12.0 * net + oneTime == 12.0 * (gain - monthly)
  }

  lemma SummaryFigures(gain: real, monthly: real, oneTime: real, avgJobValue: real)
    ensures SummaryHolds(gain, monthly, oneTime, avgJobValue,
                         RoiPercentage(gain, monthly), PaybackPeriodDays(gain, oneTime),
                         BreakEvenBookings(avgJobValue, monthly, oneTime), NetMonthlyProfit(gain, monthly, oneTime))
  {
    RoiPercentageMeaning(gain, monthly);
    PaybackMeaning(gain, oneTime);
    BreakEvenMeaning(avgJobValue, monthly, oneTime);
    NetProfitMeaning(gain, monthly, oneTime);
  }

  /** The summary figures of a report mean what the ROI, payback, break-even and
      net-profit lemmas say, stated on the report itself. */
  lemma ReportSummaryMeaning(inputs: CalculatorInputs, assumptions: ModelAssumptions, resolved: Resolution)
    ensures var r := Calculate(inputs, assumptions, resolved);
      SummaryHolds(r.totalMonthlyGain, r.monthlyServiceProCost, r.oneTimeServiceProCost, inputs.avgJobValue,
                   r.roiPercentage, r.paybackPeriodDays, r.breakEvenBookings, r.netMonthlyProfit)
  {
    var r := Calculate(inputs, assumptions, resolved);
    SummaryFigures(r.totalMonthlyGain, resolved.monthlyCost, resolved.oneTimeCost, inputs.avgJobValue);
  }

  /** The two floored figures of a report are never negative for non-negative
      leads, bookings and job value. */
  lemma ReportFloors(inputs: CalculatorInputs, assumptions: ModelAssumptions, resolved: Resolution)
    requires inputs.avgJobValue >= 0.0
    ensures var r := Calculate(inputs, assumptions, resolved);
      && (assumptions.monthlyLeads >= 0.0 ==> r.opportunityCost >= 0.0)
      && (inputs.monthlyBookings >= 0.0 ==> r.noShowReductionGain >= 0.0)
  {
    if assumptions.monthlyLeads >= 0.0 {
      OpportunityCostNonNegative(inputs, assumptions);
    }
    if inputs.monthlyBookings >= 0.0 {
      NoShowGainNonNegative(inputs, assumptions, resolved.activeGains);
    }
  }
}
