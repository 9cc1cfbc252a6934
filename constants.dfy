/** The static configuration of the calculator (constants.ts): default inputs and
    assumptions, the product catalog, and the slider bounds. Display texts (names,
    descriptions, labels) are not modelled; ids, prices, gains and bounds are. */
module Constants {
  import opened Types

  const InitialInputs := CalculatorInputs(
    monthlyBookings := 50.0,
    avgJobValue := 200.0,
    schedulingTime := 4.0,
    hourlyRate := 50.0,
    missedCallsPerWeek := 10.0,
    noShowRate := 15.0,
    conversionRate := 65.0)

  const InitialAssumptions := ModelAssumptions(
    callToBookingRate := 50.0,
    voicemailCallbackRate := 50.0,
    monthlyLeads := 100.0,
    targetConversionRate := 85.0,
    serviceProCaptureRate := 95.0,
    schedulingTimeReduction := 75.0,
    targetNoShowRate := 5.0,
    conversionLift := 25.0,
    afterHoursBookingRate := 20.0)

  const AllGains: seq<Gain> := [TimeSavings, CallsCaptured, NoShowReduction, ConversionLift, AfterHoursBookings]
  /** The five gain categories as a set. */
  const AllGainsSet: set<Gain> := set g | g in AllGains

  const Solo := Product("solo", 1299.0, 29.0, AllGains)
  const Crew := Product("crew", 2499.0, 59.0, AllGains)
  const Fleet := Product("fleet", 3999.0, 99.0, AllGains)

  const Chatbot := Product("chatbot", 0.0, 49.0, [CallsCaptured, ConversionLift, AfterHoursBookings])
  const Booking := Product("booking", 0.0, 39.0, [TimeSavings, NoShowReduction])
  const Crm := Product("crm", 0.0, 59.0, [ConversionLift])
  const Analytics := Product("analytics", 0.0, 29.0, [])

  const Packages := ProductCategory([Solo, Crew, Fleet], Single)
  const ALaCarte := ProductCategory([Chatbot, Booking, Crm, Analytics], Multiple)

  const ProductsConfig: seq<ProductCategory> := [Packages, ALaCarte]

  const InputConfig: seq<SliderConfig<InputField>> := [
    SliderConfig(MonthlyBookings, Number, 10.0, 375.0, 5.0),
    SliderConfig(AvgJobValue, Currency, 50.0, 1500.0, 10.0),
    SliderConfig(SchedulingTime, Hours, 0.0, 30.0, 1.0),
    SliderConfig(HourlyRate, Currency, 20.0, 115.0, 5.0),
    SliderConfig(MissedCallsPerWeek, Number, 0.0, 75.0, 1.0),
    SliderConfig(NoShowRate, Percentage, 0.0, 40.0, 1.0),
    SliderConfig(ConversionRate, Percentage, 10.0, 100.0, 1.0)
  ]

  const AssumptionConfig: seq<SliderConfig<AssumptionField>> := [
    SliderConfig(CallToBookingRate, Percentage, 10.0, 100.0, 1.0),
    SliderConfig(VoicemailCallbackRate, Percentage, 0.0, 100.0, 1.0),
    SliderConfig(ServiceProCaptureRate, Percentage, 80.0, 100.0, 1.0),
    SliderConfig(MonthlyLeads, Number, 20.0, 750.0, 10.0),
    SliderConfig(TargetConversionRate, Percentage, 50.0, 100.0, 1.0),
    SliderConfig(ConversionLiftRate, Percentage, 5.0, 40.0, 1.0),
    SliderConfig(SchedulingTimeReduction, Percentage, 50.0, 100.0, 1.0),
    SliderConfig(TargetNoShowRate, Percentage, 0.0, 15.0, 1.0),
    SliderConfig(AfterHoursBookingRate, Percentage, 5.0, 40.0, 1.0)
  ]

  /** Every product of the catalog, categories in order (`flatMap(cat => cat.products)`). */
  function AllProducts(catalog: seq<ProductCategory>): (all: seq<Product>)
    ensures forall p :: p in all <==> exists c :: c in catalog && p in c.products
    ensures |catalog| == 0 ==> all == []
  {
    if catalog == [] then [] else catalog[0].products + AllProducts(catalog[1..])
  }

  /** The ids of `products`, in order (`products.map(p => p.id)`). */
  function ProductIds(products: seq<Product>): (ids: seq<string>) {
    seq(|products|, k requires 0 <= k < |products| => products[k].id)
  }

  predicate Distinct<T(==)>(s: seq<T>) {
    forall i, j :: 0 <= i < j < |s| ==> s[i] != s[j]
  }

  predicate WellFormedSlider<F>(c: SliderConfig<F>) {
    c.min <= c.max && c.step > 0.0
  }

  /** The fields the sliders edit, in order (`cfg.map(c => c.id)`). */
  function SliderIds<F>(cfg: seq<SliderConfig<F>>): (ids: seq<F>) {
    seq(|cfg|, k requires 0 <= k < |cfg| => cfg[k].id)
  }

  /** The catalog's products, packages first. */
  lemma CatalogProducts()
    ensures AllProducts(ProductsConfig) == [Solo, Crew, Fleet, Chatbot, Booking, Crm, Analytics]
  {
    assert AllProducts(ProductsConfig[1..]) == ALaCarte.products + AllProducts([]);
  }

  /** Product ids are unique across the whole catalog. */
  lemma CatalogIdsUnique()
    ensures ProductIds(AllProducts(ProductsConfig)) == ["solo", "crew", "fleet", "chatbot", "booking", "crm", "analytics"]
    ensures Distinct(ProductIds(AllProducts(ProductsConfig)))
  {
    CatalogProducts();
  }

  /** Exactly one category is a `'single'` one, and it is the first. */
  lemma OnlyPackagesAreSingle()
    ensures forall k :: 0 <= k < |ProductsConfig| ==> (ProductsConfig[k].selectionType == Single <==> k == 0)
  {
  }

  /** Every gain category is in `AllGainsSet`. */
  lemma EveryGainListed(g: Gain)
    ensures g in AllGainsSet
  {
    match g
    case TimeSavings => assert g == AllGains[0];
    case CallsCaptured => assert g == AllGains[1];
    case NoShowReduction => assert g == AllGains[2];
    case ConversionLift => assert g == AllGains[3];
    case AfterHoursBookings => assert g == AllGains[4];
  }

  /** Each package unlocks all five gain categories. */
  lemma PackagesUnlockEveryGain()
    ensures forall p, g :: p in Packages.products ==> g in p.gains
  {
    forall p, g | p in Packages.products ensures g in p.gains {
      assert p.gains == AllGains;
      match g
      case TimeSavings => assert g == AllGains[0];
      case CallsCaptured => assert g == AllGains[1];
      case NoShowReduction => assert g == AllGains[2];
      case ConversionLift => assert g == AllGains[3];
      case AfterHoursBookings => assert g == AllGains[4];
    }
  }

  /** À-la-carte tools cost nothing up front; the analytics tool unlocks no gain. */
  lemma ALaCarteIsRecurringOnly()
    ensures forall p :: p in ALaCarte.products ==> p.priceOneTime == 0.0
    ensures Analytics in ALaCarte.products && Analytics.gains == []
  {
  }

  /** No catalog price is negative. */
  lemma PricesNonNegative()
    ensures forall p :: p in AllProducts(ProductsConfig) ==> p.priceOneTime >= 0.0 && p.priceMonthly >= 0.0
  {
    CatalogProducts();
  }

  /** Every slider has min <= max and a positive step. */
  lemma SlidersWellFormed()
    ensures forall k :: 0 <= k < |InputConfig| ==> WellFormedSlider(InputConfig[k])
    ensures forall k :: 0 <= k < |AssumptionConfig| ==> WellFormedSlider(AssumptionConfig[k])
  {
  }

  /** The default values lie within their sliders' bounds. */
  lemma DefaultsWithinBounds()
    ensures forall k :: 0 <= k < |InputConfig| ==>
      InputConfig[k].min <= InitialInputs.Get(InputConfig[k].id) <= InputConfig[k].max
    ensures forall k :: 0 <= k < |AssumptionConfig| ==>
      AssumptionConfig[k].min <= InitialAssumptions.Get(AssumptionConfig[k].id) <= AssumptionConfig[k].max
  {
  }

  /** Position of each input field's slider in `InputConfig`. */
  function InputSliderIndex(f: InputField): nat {
    match f
    case MonthlyBookings => 0
    case AvgJobValue => 1
    case SchedulingTime => 2
    case HourlyRate => 3
    case MissedCallsPerWeek => 4
    case NoShowRate => 5
    case ConversionRate => 6
  }

  /** Each input field has exactly one slider. */
  lemma InputSlidersCoverEachFieldOnce()
    ensures Distinct(SliderIds(InputConfig)) && forall f: InputField :: f in SliderIds(InputConfig)
  {
    var ids := SliderIds(InputConfig);
    forall k | 0 <= k < |ids| ensures InputSliderIndex(ids[k]) == k {
      if k == 0 {} else if k == 1 {} else if k == 2 {} else if k == 3 {} else if k == 4 {}
      else if k == 5 {} else {}
    }
    forall f: InputField ensures f in ids {
      assert ids[InputSliderIndex(f)] == f;
    }
  }

  /** Position of each assumption field's slider in `AssumptionConfig`. */
  function AssumptionSliderIndex(f: AssumptionField): nat {
    match f
    case CallToBookingRate => 0
    case VoicemailCallbackRate => 1
    case ServiceProCaptureRate => 2
    case MonthlyLeads => 3
    case TargetConversionRate => 4
    case ConversionLiftRate => 5
    case SchedulingTimeReduction => 6
    case TargetNoShowRate => 7
    case AfterHoursBookingRate => 8
  }

  /** Each assumption field has exactly one slider. */
  lemma AssumptionSlidersCoverEachFieldOnce()
    ensures Distinct(SliderIds(AssumptionConfig)) && forall f: AssumptionField :: f in SliderIds(AssumptionConfig)
  {
    var ids := SliderIds(AssumptionConfig);
    forall k | 0 <= k < |ids| ensures AssumptionSliderIndex(ids[k]) == k {
      if k == 0 {} else if k == 1 {} else if k == 2 {} else if k == 3 {} else if k == 4 {}
      else if k == 5 {} else if k == 6 {} else if k == 7 {} else {}
    }
    forall f: AssumptionField ensures f in ids {
      assert ids[AssumptionSliderIndex(f)] == f;
    }
  }
}
