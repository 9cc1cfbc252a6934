/** The calculator's state updates and the memoised computation of App.tsx:
    a slider edit replaces one field, a generated profile overrides the fields
    it carries, and every change recomputes the report from the inputs, the
    assumptions and the selected product ids. */
module App {
  import opened Types
  import opened Constants
  import opened Resolver
  import opened RoiEngine

  /** The selection the calculator starts with: the CREW package. */
  const InitialSelection: seq<string> := ["crew"]

  /** `{ ...prev, [field]: value }` on the inputs. */
  function SetInput(prev: CalculatorInputs, field: InputField, value: real): (next: CalculatorInputs)
    ensures next.Get(field) == value
    ensures forall f :: f != field ==> next.Get(f) == prev.Get(f)
  {
    match field
    case MonthlyBookings => prev.(monthlyBookings := value)
    case AvgJobValue => prev.(avgJobValue := value)
    case SchedulingTime => prev.(schedulingTime := value)
    case HourlyRate => prev.(hourlyRate := value)
    case MissedCallsPerWeek => prev.(missedCallsPerWeek := value)
    case NoShowRate => prev.(noShowRate := value)
    case ConversionRate => prev.(conversionRate := value)
  }

  /** `{ ...prev, [field]: value }` on the assumptions. */
  function SetAssumption(prev: ModelAssumptions, field: AssumptionField, value: real): (next: ModelAssumptions)
    ensures next.Get(field) == value
    ensures forall f :: f != field ==> next.Get(f) == prev.Get(f)
  {
    match field
    case CallToBookingRate => prev.(callToBookingRate := value)
    case VoicemailCallbackRate => prev.(voicemailCallbackRate := value)
    case MonthlyLeads => prev.(monthlyLeads := value)
    case TargetConversionRate => prev.(targetConversionRate := value)
    case ServiceProCaptureRate => prev.(serviceProCaptureRate := value)
    case SchedulingTimeReduction => prev.(schedulingTimeReduction := value)
    case TargetNoShowRate => prev.(targetNoShowRate := value)
    case ConversionLiftRate => prev.(conversionLift := value)
    case AfterHoursBookingRate => prev.(afterHoursBookingRate := value)
  }

  /** `{ ...prev, ...profile }`: a generated profile is a partial input record,
      here the map from the fields it carries to their values. */
  function MergeProfile(prev: CalculatorInputs, profile: map<InputField, real>): (next: CalculatorInputs)
    ensures forall f :: next.Get(f) == if f in profile then profile[f] else prev.Get(f)
  {
    CalculatorInputs(
      monthlyBookings := if MonthlyBookings in profile then profile[MonthlyBookings] else prev.monthlyBookings,
      avgJobValue := if AvgJobValue in profile then profile[AvgJobValue] else prev.avgJobValue,
      schedulingTime := if SchedulingTime in profile then profile[SchedulingTime] else prev.schedulingTime,
      hourlyRate := if HourlyRate in profile then profile[HourlyRate] else prev.hourlyRate,
      missedCallsPerWeek :=
        if MissedCallsPerWeek in profile then profile[MissedCallsPerWeek] else prev.missedCallsPerWeek,
      noShowRate := if NoShowRate in profile then profile[NoShowRate] else prev.noShowRate,
      conversionRate := if ConversionRate in profile then profile[ConversionRate] else prev.conversionRate)
  }

  /** Two input records with the same value in every field are the same record. */
  lemma InputsEqualByFields(a: CalculatorInputs, b: CalculatorInputs)
    requires forall f :: a.Get(f) == b.Get(f)
    ensures a == b
  {
    assert a.Get(MonthlyBookings) == b.Get(MonthlyBookings);
    assert a.Get(AvgJobValue) == b.Get(AvgJobValue);
    assert a.Get(SchedulingTime) == b.Get(SchedulingTime);
    assert a.Get(HourlyRate) == b.Get(HourlyRate);
    assert a.Get(MissedCallsPerWeek) == b.Get(MissedCallsPerWeek);
    assert a.Get(NoShowRate) == b.Get(NoShowRate);
    assert a.Get(ConversionRate) == b.Get(ConversionRate);
  }

  /** Merging two profiles one after the other is merging their union, the
      later one winning on the fields both carry. */
  lemma MergeProfileLastWriteWins(prev: CalculatorInputs, first: map<InputField, real>, second: map<InputField, real>)
    ensures MergeProfile(MergeProfile(prev, first), second) == MergeProfile(prev, first + second)
  {
    InputsEqualByFields(MergeProfile(MergeProfile(prev, first), second), MergeProfile(prev, first + second));
  }

  /** A slider edit is the merge of a one-field profile; the empty profile changes nothing. */
  lemma SetInputIsOneFieldMerge(prev: CalculatorInputs, field: InputField, value: real)
    ensures SetInput(prev, field, value) == MergeProfile(prev, map[field := value])
    ensures MergeProfile(prev, map[]) == prev
  {
    InputsEqualByFields(SetInput(prev, field, value), MergeProfile(prev, map[field := value]));
    InputsEqualByFields(MergeProfile(prev, map[]), prev);
  }

  /** The report for the shipped catalog. */
  function Results(inputs: CalculatorInputs, assumptions: ModelAssumptions, selectedIds: seq<string>)
    : CalculatedOutputs
  {
    Calculate(inputs, assumptions, Resolve(ProductsConfig, selectedIds))
  }

  /** The body of the memoised computation (lines 38-118). */
  method ComputeResults(inputs: CalculatorInputs, assumptions: ModelAssumptions, selectedIds: seq<string>)
    returns (results: CalculatedOutputs)
    ensures results == Results(inputs, assumptions, selectedIds)
  {
    var resolved := ResolveSelection(ProductsConfig, selectedIds);
    results := Calculate(inputs, assumptions, resolved);
  }

  /** With nothing selected every gain, and the total gain, is 0, and so are both costs. */
  lemma NothingSelectedGainsNothing(inputs: CalculatorInputs, assumptions: ModelAssumptions)
    ensures var r := Results(inputs, assumptions, []);
      (forall g :: r.GainFor(g) == 0.0) && r.totalMonthlyGain == 0.0
      && r.monthlyServiceProCost == 0.0 && r.oneTimeServiceProCost == 0.0
  {
    EmptySelection(ProductsConfig);
    var r := Results(inputs, assumptions, []);
    assert r.timeSavingsGain == r.GainFor(TimeSavings);
    assert r.callsCapturedGain == r.GainFor(CallsCaptured);
    assert r.noShowReductionGain == r.GainFor(NoShowReduction);
    assert r.conversionLiftGain == r.GainFor(ConversionLift);
    assert r.afterHoursBookingsGain == r.GainFor(AfterHoursBookings);
  }

  /** The analytics dashboard alone unlocks no gain: every gain and the total are 0. */
  lemma AnalyticsAloneGainsNothing(inputs: CalculatorInputs, assumptions: ModelAssumptions)
    ensures var r := Results(inputs, assumptions, ["analytics"]);
      (forall g :: r.GainFor(g) == 0.0) && r.totalMonthlyGain == 0.0
  {
    CatalogProducts();
    var all := AllProducts(ProductsConfig);
    var selected := SelectedProducts(all, ["analytics"]);
    forall p | p in selected ensures p.gains == [] {
      assert p == Analytics;
    }
    assert GainsOf(selected) == {};
    var r := Results(inputs, assumptions, ["analytics"]);
    assert r.timeSavingsGain == r.GainFor(TimeSavings);
    assert r.callsCapturedGain == r.GainFor(CallsCaptured);
    assert r.noShowReductionGain == r.GainFor(NoShowReduction);
    assert r.conversionLiftGain == r.GainFor(ConversionLift);
    assert r.afterHoursBookingsGain == r.GainFor(AfterHoursBookings);
  }

  const CrewResolved := Resolution(AllGainsSet, 59.0, 2499.0)

  /** Selecting CREW unlocks every gain category at 59 a month and 2499 up front. */
  lemma CrewResolution()
    ensures Resolve(ProductsConfig, InitialSelection) == CrewResolved
  {
    CrewCostsAsWritten();
    CrewSelection();
    PackagesUnlockEveryGain();
    forall g ensures g in GainsOf([Crew]) <==> g in AllGainsSet {
      assert Crew in [Crew] && g in Crew.gains;
    }
  }

  /** The current-cost figures for the default inputs and assumptions (any selection). */
  lemma DefaultCurrentCosts(selectedIds: seq<string>)
    ensures var r := Results(InitialInputs, InitialAssumptions, selectedIds);
      && r.currentMonthlyRevenue == 10000.0
      && r.laborCostScheduling == 800.0
      && r.lostBookings == 2000.0
      && r.lostRevenueNoShows == 1500.0
      && r.opportunityCost == 4000.0
      && r.totalCurrentCost == 8300.0
  {
  }

  /** The gain figures for the default inputs and assumptions with CREW selected. */
  lemma DefaultCrewGains()
    ensures var r := Results(InitialInputs, InitialAssumptions, InitialSelection);
      && r.timeSavingsGain == 390.0
      && r.callsCapturedGain == 1170.0
      && r.noShowReductionGain == 650.0
      && r.conversionLiftGain == 2112.5
      && r.afterHoursBookingsGain == 1300.0
      && r.totalMonthlyGain == 5622.5
  {
    CrewResolution();
    EveryGainListed(TimeSavings);
    EveryGainListed(CallsCaptured);
    EveryGainListed(NoShowReduction);
    EveryGainListed(ConversionLift);
    EveryGainListed(AfterHoursBookings);
  }

  /** The ROI summary for the default inputs and assumptions with CREW selected. */
  lemma DefaultCrewSummary()
    ensures var r := Results(InitialInputs, InitialAssumptions, InitialSelection);
      && r.netMonthlyProfit == 5355.25
      && r.roiPercentage == 556350.0 / 59.0
      && r.paybackPeriodDays == 29988.0 / 2249.0
      && r.breakEvenBookings == 12.79
  {
    DefaultCrewGains();
    CrewResolution();
    RoiPercentageMeaning(5622.5, 59.0);
    PaybackMeaning(5622.5, 2499.0);
    BreakEvenMeaning(200.0, 59.0, 2499.0);
  }
}
