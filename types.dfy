/** The records of the ROI calculator (types.ts): slider configurations, gain
    categories, products and their categories, the business inputs, the model
    assumptions and the calculated report. Every number of the calculator is a
    `real`, so arithmetic is exact. */
module Types {

  datatype Option<+T> = None | Some(value: T)

  /** How a slider value is displayed (`BaseConfig.type`). */
  datatype ValueKind = Currency | Percentage | Number | Hours

  /** One slider: the field it edits, how it is displayed, and its bounds and step. */
  datatype SliderConfig<+F> = SliderConfig(
    id: F,
    kind: ValueKind,
    min: real,
    max: real,
    step: real)

  /** The five benefit classes a product can unlock. */
  datatype Gain = TimeSavings | CallsCaptured | NoShowReduction | ConversionLift | AfterHoursBookings

  datatype Product = Product(
    id: string,
    priceOneTime: real,
    priceMonthly: real,
    gains: seq<Gain>)

  /** `'single'` (a package: one of them at a time) or `'multiple'` (independent toggles). */
  datatype SelectionType = Single | Multiple

  datatype ProductCategory = ProductCategory(
    products: seq<Product>,
    selectionType: SelectionType)

  /** The keys of `CalculatorInputs`. */
  datatype InputField =
    | MonthlyBookings | AvgJobValue | SchedulingTime | HourlyRate
    | MissedCallsPerWeek | NoShowRate | ConversionRate

  /** The operational metrics of the business; the two rates are whole percentages. */
  datatype CalculatorInputs = CalculatorInputs(
    monthlyBookings: real,
    avgJobValue: real,
    schedulingTime: real,     // hours per week
    hourlyRate: real,
    missedCallsPerWeek: real,
    noShowRate: real,         // percentage
    conversionRate: real)     // percentage
  {
    /** The value stored under `field` (`inputs[field]`). */
    function Get(field: InputField): real {
      match field
      case MonthlyBookings => monthlyBookings
      case AvgJobValue => avgJobValue
      case SchedulingTime => schedulingTime
      case HourlyRate => hourlyRate
      case MissedCallsPerWeek => missedCallsPerWeek
      case NoShowRate => noShowRate
      case ConversionRate => conversionRate
    }
  }

  /** The keys of `ModelAssumptions`. */
  datatype AssumptionField =
    | CallToBookingRate | VoicemailCallbackRate | MonthlyLeads | TargetConversionRate
    | ServiceProCaptureRate | SchedulingTimeReduction | TargetNoShowRate
    | ConversionLiftRate | AfterHoursBookingRate

  /** The tunable assumptions; all but `monthlyLeads` are whole percentages. */
  datatype ModelAssumptions = ModelAssumptions(
    callToBookingRate: real,
    voicemailCallbackRate: real,
    monthlyLeads: real,
    targetConversionRate: real,
    serviceProCaptureRate: real,
    schedulingTimeReduction: real,
    targetNoShowRate: real,
    conversionLift: real,
    afterHoursBookingRate: real)
  {
    /** The value stored under `field` (`assumptions[field]`). */
    function Get(field: AssumptionField): real {
      match field
      case CallToBookingRate => callToBookingRate
      case VoicemailCallbackRate => voicemailCallbackRate
      case MonthlyLeads => monthlyLeads
      case TargetConversionRate => targetConversionRate
      case ServiceProCaptureRate => serviceProCaptureRate
      case SchedulingTimeReduction => schedulingTimeReduction
      case TargetNoShowRate => targetNoShowRate
      case ConversionLiftRate => conversionLift
      case AfterHoursBookingRate => afterHoursBookingRate
    }
  }

  /** The report: current-state costs, gains per category and the ROI summary. */
  datatype CalculatedOutputs = CalculatedOutputs(
    // current costs
    currentMonthlyRevenue: real,
    laborCostScheduling: real,
    lostBookings: real,
    lostRevenueNoShows: real,
    opportunityCost: real,
    totalCurrentCost: real,
    // gains
    timeSavingsGain: real,
    callsCapturedGain: real,
    noShowReductionGain: real,
    conversionLiftGain: real,
    afterHoursBookingsGain: real,
    totalMonthlyGain: real,
    // ROI summary
    monthlyServiceProCost: real,
    oneTimeServiceProCost: real,
    netMonthlyProfit: real,
    roiPercentage: real,
    paybackPeriodDays: real,
    breakEvenBookings: real)
  {
    /** The gain figure reported for gain category `g`. */
    function GainFor(g: Gain): real {
      match g
      case TimeSavings => timeSavingsGain
      case CallsCaptured => callsCapturedGain
      case NoShowReduction => noShowReductionGain
      case ConversionLift => conversionLiftGain
      case AfterHoursBookings => afterHoursBookingsGain
    }
  }
}
