/**
 * The estimate logic of src/App.jsx: the mowing, shrub and clean-up services,
 * the minimum-charge rule, the stored estimate row, the reset after a save,
 * the PDF file name, and the owner component that ties the measuring session
 * to the pricing through React effects.
 */
module AppEstimate {
  import opened Wrappers
  import opened Geometry
  import opened EstimateForm
  import SafeNames
  import LawnCalculator

  /** Which services the estimate includes (the check boxes). */
  datatype Services = Services(mowing: bool, shrubs: bool, cleanup: bool)

  /** A fresh form offers mowing only. */
  const DefaultServices: Services := Services(true, false, false)

  /** The `pricingData` state: the rate, the stored total and the two flat fees. */
  datatype PricingData = PricingData(ratePerSqFt: real, finalTotal: real, shrubPrice: PriceField, cleanupPrice: PriceField)

  /** The pricing a fresh form starts with. */
  const DefaultPricing: PricingData := PricingData(DefaultRate, 0.0, Some(0.0), Some(0.0))

  /** The owner's state that the estimate is computed and saved from. */
  datatype AppState = AppState(customer: Customer, services: Services, totalArea: int, pricing: PricingData)

  /** The state of a fresh form, and of one that `resetEverything` has just cleared. */
  const InitialState: AppState := AppState(EmptyCustomer, DefaultServices, 0, DefaultPricing)

  // ---------------------------------------------------------------------------
  // Pricing
  // ---------------------------------------------------------------------------

  /** Mowing is the only active service. */
  predicate OnlyMowing(s: Services)
  {
    s.mowing && !s.shrubs && !s.cleanup
  }

  /**
   * `lawnCost`: area times rate, raised to the $50 minimum only when mowing is
   * the sole service; with any other service active the floor is waived.
   */
  function LawnCost(area: int, rate: real, s: Services): (c: real)
    ensures c >= area as real * rate
    ensures OnlyMowing(s) ==> c >= MinimumCharge
    ensures c == area as real * rate || (OnlyMowing(s) && area as real * rate < MinimumCharge && c == MinimumCharge)
  {
    var rawLawnCost := area as real * rate;
    if OnlyMowing(s) && rawLawnCost < MinimumCharge then MinimumCharge else rawLawnCost
  }

  /** `finalTotal`: each active service's amount; inactive services add nothing. */
  function FinalTotal(area: int, p: PricingData, s: Services): (t: real)
    ensures !s.mowing && !s.shrubs && !s.cleanup ==> t == 0.0
    ensures OnlyMowing(s) ==> t == LawnCost(area, p.ratePerSqFt, s) >= MinimumCharge
  {
    (if s.mowing then LawnCost(area, p.ratePerSqFt, s) else 0.0)
    + (if s.shrubs then PriceOrZero(p.shrubPrice) else 0.0)
    + (if s.cleanup then PriceOrZero(p.cleanupPrice) else 0.0)
  }

  /** An inactive service's price, and the area and rate when mowing is off, do not matter. */
  lemma InactiveServicesIgnored(area: int, area': int, p: PricingData, s: Services, price: PriceField, rate: real)
    ensures !s.shrubs ==> FinalTotal(area, p.(shrubPrice := price), s) == FinalTotal(area, p, s)
    ensures !s.cleanup ==> FinalTotal(area, p.(cleanupPrice := price), s) == FinalTotal(area, p, s)
    ensures !s.mowing ==> FinalTotal(area', p.(ratePerSqFt := rate), s) == FinalTotal(area, p, s)
  {
  }

  /** A blank fee counts as zero in the total. */
  lemma BlankFeeCountsZero(area: int, p: PricingData, s: Services)
    requires p.shrubPrice == None && p.cleanupPrice == None
    ensures FinalTotal(area, p, s) == if s.mowing then LawnCost(area, p.ratePerSqFt, s) else 0.0
  {
  }

  /**
   * With no area, the default rate and a $25 shrub fee beside mowing, the
   * floor is waived: the total is $25, not $75.
   */
  lemma FloorWaivedBesideFlatFee()
    ensures FinalTotal(0, DefaultPricing.(shrubPrice := Some(25.0)), Services(true, true, false)) == 25.0
    ensures FinalTotal(0, DefaultPricing, DefaultServices) == 50.0
    ensures FinalTotal(10000, DefaultPricing, DefaultServices) == 200.0
  {
  }

  /** The stored total is the one the pricing computes (the pricing effect has run). */
  predicate Synced(s: AppState)
  {
    s.pricing.finalTotal == FinalTotal(s.totalArea, s.pricing, s.services)
  }

  // ---------------------------------------------------------------------------
  // Saving
  // ---------------------------------------------------------------------------

  /** Why a save is refused before anything is stored. */
  datatype SaveError = AreaNotMeasured

  /** The row inserted into the `estimates` table. */
  datatype EstimateRow = EstimateRow(
    name: string, address: string, phone: string, email: string,
    lawnArea: int, notes: string, rateUsed: real,
    shrubPrice: JsNumber, cleanupPrice: JsNumber, finalPrice: real)

  /** `handleSave`'s guard: nothing is stored while mowing is on and no area is measured. */
  predicate SaveRefused(s: AppState)
  {
    s.totalArea == 0 && s.services.mowing
  }

  /**
   * The row exactly as `handleSave` builds it: refused by the guard; an
   * inactive service stores 0; an active fee is `parseFloat(price)`, which is
   * NaN for a cleared input; the final price is the stored total.
   */
  function SaveRecordAsWritten(s: AppState): (r: Result<EstimateRow, SaveError>)
    ensures r.Err? <==> SaveRefused(s)
    ensures r.Ok? ==> (r.value.name == s.customer.name && r.value.address == s.customer.address
                       && r.value.phone == s.customer.phone && r.value.email == s.customer.email
                       && r.value.notes == s.customer.notes)
    ensures r.Ok? ==> r.value.lawnArea == s.totalArea && r.value.rateUsed == s.pricing.ratePerSqFt
    ensures r.Ok? && !s.services.shrubs ==> r.value.shrubPrice == Num(0.0)
    ensures r.Ok? && !s.services.cleanup ==> r.value.cleanupPrice == Num(0.0)
    ensures r.Ok? && s.services.shrubs ==> (r.value.shrubPrice == NaN <==> s.pricing.shrubPrice == None)
    ensures r.Ok? && s.services.cleanup ==> (r.value.cleanupPrice == NaN <==> s.pricing.cleanupPrice == None)
    ensures r.Ok? && s.services.shrubs && s.pricing.shrubPrice.Some? ==> r.value.shrubPrice == Num(s.pricing.shrubPrice.value)
    ensures r.Ok? && s.services.cleanup && s.pricing.cleanupPrice.Some? ==> r.value.cleanupPrice == Num(s.pricing.cleanupPrice.value)
    ensures r.Ok? ==> r.value.finalPrice == s.pricing.finalTotal
  {
    if SaveRefused(s) then Err(AreaNotMeasured)
    else Ok(EstimateRow(
      s.customer.name, s.customer.address, s.customer.phone, s.customer.email,
      s.totalArea, s.customer.notes, s.pricing.ratePerSqFt,
      if s.services.shrubs then ParseFloat(s.pricing.shrubPrice) else Num(0.0),
      if s.services.cleanup then ParseFloat(s.pricing.cleanupPrice) else Num(0.0),
      s.pricing.finalTotal))
  }

  /**
   * An active shrub fee left blank is stored as NaN while the saved total
   * counted it as zero, so the row does not add up.
   */
  lemma BlankFeeStoredAsNaN()
    ensures var s := InitialState.(services := Services(true, true, false), totalArea := 5000,
                                   pricing := DefaultPricing.(shrubPrice := None, finalTotal := 100.0));
      Synced(s) && SaveRecordAsWritten(s).Ok?
      && SaveRecordAsWritten(s).value.shrubPrice == NaN
      && SaveRecordAsWritten(s).value.finalPrice == 100.0
  {
  }

  /**
   * The row `handleSave` stores, with an active fee read as the total reads
   * it (`parseFloat(price || 0)`): inactive services store 0, the row carries
   * the form's customer, area and rate, and the stored total.
   */
  function SaveRecord(s: AppState): (r: Result<EstimateRow, SaveError>)
    ensures r.Err? <==> s.totalArea == 0 && s.services.mowing
    ensures r.Ok? ==> (r.value.name == s.customer.name && r.value.address == s.customer.address
                       && r.value.phone == s.customer.phone && r.value.email == s.customer.email
                       && r.value.notes == s.customer.notes)
    ensures r.Ok? ==> r.value.lawnArea == s.totalArea && r.value.rateUsed == s.pricing.ratePerSqFt
    ensures r.Ok? ==> r.value.shrubPrice.Num? && r.value.cleanupPrice.Num?
    ensures r.Ok? && !s.services.shrubs ==> r.value.shrubPrice == Num(0.0)
    ensures r.Ok? && !s.services.cleanup ==> r.value.cleanupPrice == Num(0.0)
    ensures r.Ok? && s.services.shrubs ==> r.value.shrubPrice == Num(PriceOrZero(s.pricing.shrubPrice))
    ensures r.Ok? && s.services.cleanup ==> r.value.cleanupPrice == Num(PriceOrZero(s.pricing.cleanupPrice))
    ensures r.Ok? ==> r.value.finalPrice == s.pricing.finalTotal
  {
    if s.totalArea == 0 && s.services.mowing then Err(AreaNotMeasured)
    else Ok(EstimateRow(
      s.customer.name, s.customer.address, s.customer.phone, s.customer.email,
      s.totalArea, s.customer.notes, s.pricing.ratePerSqFt,
      Num(if s.services.shrubs then PriceOrZero(s.pricing.shrubPrice) else 0.0),
      Num(if s.services.cleanup then PriceOrZero(s.pricing.cleanupPrice) else 0.0),
      s.pricing.finalTotal))
  }

  /**
   * The two records differ only where an active fee was left blank: they are
   * refused alike, and without a blank active fee they are the same row.
   */
  lemma SaveRecordsAgree(s: AppState)
    ensures SaveRecordAsWritten(s).Err? <==> SaveRecord(s).Err?
    ensures !(s.services.shrubs && s.pricing.shrubPrice == None)
         && !(s.services.cleanup && s.pricing.cleanupPrice == None)
        ==> SaveRecordAsWritten(s) == SaveRecord(s)
  {
  }

  /** A saved row adds up: its total is the lawn line plus the stored fees. */
  lemma SavedRowAddsUp(s: AppState)
    requires Synced(s) && SaveRecord(s).Ok?
    ensures var row := SaveRecord(s).value;
      row.finalPrice == (if s.services.mowing then LawnCost(s.totalArea, s.pricing.ratePerSqFt, s.services) else 0.0)
                        + row.shrubPrice.value + row.cleanupPrice.value
  {
  }

  /** The reset state refuses to save until an area is measured. */
  lemma ResetRefusesSave()
    ensures SaveRecord(InitialState) == Err(AreaNotMeasured)
    ensures FinalTotal(InitialState.totalArea, InitialState.pricing, InitialState.services) == MinimumCharge
    ensures !Synced(InitialState)
  {
  }

  // ---------------------------------------------------------------------------
  // PDF file name
  // ---------------------------------------------------------------------------

  /** The file-name prefix for the internal (`"sharp"`) and the customer copy. */
  function FilePrefix(kind: string): (r: string)
    ensures SafeNames.IsFileNameSafe(r)
  {
    var internal, customer := "Sharp_Internal_", "Estimate_";
    assert internal == ['S', 'h', 'a', 'r', 'p', '_', 'I', 'n', 't', 'e', 'r', 'n', 'a', 'l', '_'];
    assert customer == ['E', 's', 't', 'i', 'm', 'a', 't', 'e', '_'];
    if kind == "sharp" then internal else customer
  }

  /** `fileName`: prefix, safe name, `.pdf`. */
  function PdfFileName(kind: string, name: string): string
  {
    FilePrefix(kind) + SafeNames.SafeName(name) + ".pdf"
  }

  /**
   * The file name holds only ASCII letters, digits, `_` and `.`, and the safe
   * name can be read back from between the prefix and the extension.
   */
  lemma PdfFileNameShape(kind: string, name: string)
    ensures var f := PdfFileName(kind, name);
      SafeNames.IsFileNameSafe(f)
      && f[|FilePrefix(kind)|..|f| - 4] == SafeNames.SafeName(name)
      && f[|f| - 4..] == ".pdf"
  {
    SafeNames.PdfNameShape(FilePrefix(kind), name);
  }

  // ---------------------------------------------------------------------------
  // The owner component: state, effects and reset
  // ---------------------------------------------------------------------------

  /**
   * `LawnBusinessApp` with its measuring session. `areaDeps` and `totalDeps`
   * are the values the two effects last ran with: React re-runs an effect only
   * when its dependency changed since then.
   */
  class EstimateApp {
    var state: AppState
    const calculator: LawnCalculator.Session
    /** Whether `clearMapRef.current` holds the session's clear function. */
    var clearMap: bool
    var areaDeps: Option<int>
    var totalDeps: Option<real>

    ghost predicate Valid()
      reads this, calculator
    {
      calculator.Valid()
    }

    /** The first render of App.jsx: the session never registers its clear function. */
    constructor ()
      ensures Valid() && fresh(calculator)
      ensures state == InitialState && !clearMap && areaDeps == None && totalDeps == None
      ensures calculator.polygons == [] && calculator.activePath == []
    {
      state := InitialState;
      calculator := new LawnCalculator.Session();
      clearMap := false;
      areaDeps, totalDeps := None, None;
    }

    /** The customer inputs' `onChange` handlers: `setCustomer` with the typed values. */
    method EditCustomer(c: Customer)
      modifies this`state
      ensures state == old(state).(customer := c)
    {
      state := state.(customer := c);
    }

    /** The session hands `handleClearAll` to its owner through `onLoadClear`. */
    method RegisterClear()
      modifies this`clearMap
      ensures clearMap
    {
      clearMap := true;
    }

    /** The effect that copies `calculatedArea` into `totalArea` when it changed. */
    method RenderArea(geometry: Option<AreaFn>)
      requires Valid()
      modifies this`state, this`areaDeps
      ensures Valid()
      ensures areaDeps == Some(calculator.Area(geometry))
      ensures state == if old(areaDeps) == areaDeps then old(state) else old(state).(totalArea := calculator.Area(geometry))
    {
      var calculatedArea := calculator.Area(geometry);
      if areaDeps != Some(calculatedArea) {
        state := state.(totalArea := calculatedArea);
      }
      areaDeps := Some(calculatedArea);
    }

    /** The pricing effect as written: it stores `finalTotal` only when that value changed. */
    method RenderPricingAsWritten()
      modifies this`state, this`totalDeps
      ensures var t := FinalTotal(old(state).totalArea, old(state).pricing, old(state).services);
        totalDeps == Some(t)
        && state == if old(totalDeps) == Some(t) then old(state) else old(state).(pricing := old(state).pricing.(finalTotal := t))
    {
      var finalTotal := FinalTotal(state.totalArea, state.pricing, state.services);
      if totalDeps != Some(finalTotal) {
        state := state.(pricing := state.pricing.(finalTotal := finalTotal));
      }
      totalDeps := Some(finalTotal);
    }

    /** The pricing rendered so that the stored total always follows the computed one. */
    method RenderPricing()
      modifies this`state, this`totalDeps
      ensures Synced(state) && totalDeps == Some(state.pricing.finalTotal)
      ensures state == old(state).(pricing := old(state).pricing.(finalTotal := state.pricing.finalTotal))
    {
      var finalTotal := FinalTotal(state.totalArea, state.pricing, state.services);
      state := state.(pricing := state.pricing.(finalTotal := finalTotal));
      totalDeps := Some(finalTotal);
    }

    /** `resetEverything`: clear the map if the session registered, then the form. */
    method ResetEverything()
      requires Valid()
      modifies this`state, calculator
      ensures Valid()
      ensures state == InitialState
      ensures old(clearMap) ==> (calculator.polygons == [] && calculator.activePath == []
                                 && calculator.mode == LawnCalculator.View
                                 && forall g :: calculator.Area(g) == state.totalArea)
      ensures !old(clearMap) ==> unchanged(calculator)
    {
      if clearMap {
        calculator.HandleClearAll();
      }
      state := InitialState;
    }

    /**
     * `handleSave`: refused without an area; otherwise the row is inserted and,
     * when the insert succeeds, the form is reset.
     */
    method HandleSave(insertSucceeds: bool) returns (r: Result<EstimateRow, SaveError>)
      requires Valid()
      modifies this`state, calculator
      ensures Valid()
      ensures r == SaveRecordAsWritten(old(state))
      ensures r.Ok? && insertSucceeds ==> state == InitialState
      ensures r.Ok? && insertSucceeds && old(clearMap)
          ==> calculator.polygons == [] && calculator.activePath == [] && calculator.mode == LawnCalculator.View
      ensures r.Ok? && insertSucceeds && !old(clearMap) ==> unchanged(calculator)
      ensures !(r.Ok? && insertSucceeds) ==> state == old(state) && unchanged(calculator)
    {
      r := SaveRecordAsWritten(state);
      if r.Ok? && insertSucceeds {
        ResetEverything();
      }
    }
  }

  /** One triangle on the map, each polygon one square metre in this scenario. */
  method DrawTriangle(app: EstimateApp) returns (area: AreaFn)
    requires app.Valid()
    requires app.calculator.polygons == [] && app.calculator.activePath == []
    modifies app.calculator
    ensures app.Valid()
    ensures |app.calculator.polygons| == 1 && app.calculator.activePath == []
    ensures app.state == old(app.state) && app.clearMap == old(app.clearMap)
    ensures app.areaDeps == old(app.areaDeps) && app.totalDeps == old(app.totalDeps)
    ensures app.calculator.Area(Some(area)) == 11
  {
    var corner := LatLng(26.1224, -80.1373);
    app.calculator.SetMode(LawnCalculator.Draw);
    app.calculator.MapClick(corner);
    app.calculator.MapClick(corner);
    app.calculator.MapClick(corner);
    var alerted := app.calculator.FinishShape();
    area := (p: Path) => 1.0;
    LawnCalculator.CalculatedAreaSplit(area, app.calculator.polygons, []);
    assert app.calculator.polygons[..0] == [];
  }

  /**
   * As written, the session never registers its clear function, so after
   * `resetEverything` the shapes stay on the map and keep their area while
   * the owner's `totalArea` is 0, and the area effect does not re-run.
   */
  method ResetLeavesShapes() returns (storedArea: int, mapArea: int)
    ensures storedArea == 0 && mapArea == 11
  {
    var app := new EstimateApp();
    var area := DrawTriangle(app);
    app.RenderArea(Some(area));
    app.ResetEverything();
    app.RenderArea(Some(area));
    storedArea := app.state.totalArea;
    mapArea := app.calculator.Area(Some(area));
  }

  /** With the clear function registered, the reset empties the map and the totals agree. */
  method ResetClearsShapes() returns (storedArea: int, mapArea: int)
    ensures storedArea == 0 && mapArea == 0
  {
    var app := new EstimateApp();
    app.RegisterClear();
    var area := DrawTriangle(app);
    app.RenderArea(Some(area));
    app.ResetEverything();
    app.RenderArea(Some(area));
    storedArea := app.state.totalArea;
    mapArea := app.calculator.Area(Some(area));
  }

  /**
   * As written, a reset while the computed total is the $50 minimum leaves the
   * stored total at 0: the pricing effect sees an unchanged value and does not
   * run, so a later minimum-charge save stores a final price of 0.
   */
  method StaleTotalAfterReset() returns (row: Result<EstimateRow, SaveError>, owed: real)
    ensures row.Ok? && row.value.finalPrice == 0.0 && owed == MinimumCharge
    ensures row.Ok? && row.value.name != "" && row.value.address != ""
  {
    var app := new EstimateApp();
    app.RenderPricingAsWritten();
    app.ResetEverything();
    app.RenderPricingAsWritten();
    var area := DrawTriangle(app);
    app.RenderArea(Some(area));
    app.RenderPricingAsWritten();
    app.EditCustomer(SampleCustomer);
    owed := FinalTotal(app.state.totalArea, app.state.pricing, app.state.services);
    row := app.HandleSave(false);
  }

  /** With the total always re-stored, the same steps save the $50 that is owed. */
  method SyncedTotalAfterReset() returns (row: Result<EstimateRow, SaveError>, owed: real)
    ensures row.Ok? && row.value.finalPrice == owed == MinimumCharge
    ensures row.Ok? && row.value.name != "" && row.value.address != ""
  {
    var app := new EstimateApp();
    app.RenderPricing();
    app.ResetEverything();
    app.RenderPricing();
    var area := DrawTriangle(app);
    app.RenderArea(Some(area));
    app.RenderPricing();
    app.EditCustomer(SampleCustomer);
    owed := FinalTotal(app.state.totalArea, app.state.pricing, app.state.services);
    row := app.HandleSave(false);
  }
}
