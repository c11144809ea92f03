/**
 * The estimate logic of src/App1.jsx: one lawn line that is always floored at
 * the $50 minimum, one optional custom fee, the PDF's lawn row, the stored
 * estimate row, the reset after a save and the PDF file name.
 */
module App1Estimate {
  import opened Wrappers
  import opened EstimateForm
  import SafeNames

  /** The optional flat fee (`customExtra`); `text` is its `label`. */
  datatype CustomExtra = CustomExtra(active: bool, text: string, price: PriceField)

  /** The `pricingData` state of App1.jsx. */
  datatype PricingData = PricingData(ratePerSqFt: real, finalTotal: real, customExtra: CustomExtra)

  /** The pricing `resetEverything` restores: default rate, no total, no fee. */
  const DefaultPricing: PricingData := PricingData(DefaultRate, 0.0, CustomExtra(false, "", Some(0.0)))

  /** The owner's state that the estimate is computed and saved from. */
  datatype AppState = AppState(customer: Customer, totalArea: int, pricing: PricingData)

  // ---------------------------------------------------------------------------
  // Pricing
  // ---------------------------------------------------------------------------

  /** `lawnCost`: area times rate, never below the $50 minimum, whatever the fee. */
  function LawnCost(area: int, rate: real): (c: real)
    ensures c >= MinimumCharge && c >= area as real * rate
    ensures c == area as real * rate || c == MinimumCharge
  {
    var rawLawnCost := area as real * rate;
    if rawLawnCost < MinimumCharge then MinimumCharge else rawLawnCost
  }

  /** `extraCost`: the fee's price (blank counts as 0) when it is active, else 0. */
  function ExtraCost(extra: CustomExtra): (c: real)
    ensures !extra.active ==> c == 0.0
    ensures extra.active && extra.price == None ==> c == 0.0
  {
    if extra.active then PriceOrZero(extra.price) else 0.0
  }

  /** `finalTotal`: the floored lawn line plus the fee. */
  function FinalTotal(area: int, p: PricingData): (t: real)
    ensures !p.customExtra.active ==> t == LawnCost(area, p.ratePerSqFt)
    ensures t - ExtraCost(p.customExtra) >= MinimumCharge
  {
    LawnCost(area, p.ratePerSqFt) + ExtraCost(p.customExtra)
  }

  /**
   * The floor applies whatever the custom fee is: no area at the default rate
   * costs $50, and $75 with a $25 fee; 10,000 sq ft costs $200.
   */
  lemma FloorKeptBesideFlatFee()
    ensures FinalTotal(0, DefaultPricing) == 50.0
    ensures FinalTotal(0, DefaultPricing.(customExtra := CustomExtra(true, "Edging", Some(25.0)))) == 75.0
    ensures FinalTotal(10000, DefaultPricing) == 200.0
  {
  }

  /** The stored total is the one the pricing computes (the pricing effect has run). */
  predicate Synced(s: AppState)
  {
    s.pricing.finalTotal == FinalTotal(s.totalArea, s.pricing)
  }

  /**
   * The calculator's pricing effect as written. `deps` is the `finalTotal` it
   * last ran for. It runs, and stores the computed total, only when that value
   * has changed; the second component is its new dependency.
   */
  function PricingEffectAsWritten(s: AppState, deps: Option<real>): (r: (AppState, Option<real>))
    ensures r.1 == Some(FinalTotal(s.totalArea, s.pricing))
    ensures deps == r.1 ==> r.0 == s
    ensures deps != r.1 ==> Synced(r.0) && r.0 == s.(pricing := s.pricing.(finalTotal := r.0.pricing.finalTotal))
  {
    var finalTotal := FinalTotal(s.totalArea, s.pricing);
    if deps == Some(finalTotal) then (s, deps)
    else (s.(pricing := s.pricing.(finalTotal := finalTotal)), Some(finalTotal))
  }

  /** The pricing rendered so that the stored total always follows the computed one. */
  function PricingEffect(s: AppState): (r: AppState)
    ensures Synced(r)
    ensures r == s.(pricing := s.pricing.(finalTotal := r.pricing.finalTotal))
  {
    s.(pricing := s.pricing.(finalTotal := FinalTotal(s.totalArea, s.pricing)))
  }

  // ---------------------------------------------------------------------------
  // The PDF's lawn row
  // ---------------------------------------------------------------------------

  /** The middle cell of the lawn row. */
  datatype LawnDetail = MinimumChargeNote | RateNote(area: int, rate: real)

  /** The middle cell: "Minimum Charge" below $50, otherwise area and rate. */
  function DetailCell(area: int, rate: real): LawnDetail
  {
    if area as real * rate < MinimumCharge then MinimumChargeNote else RateNote(area, rate)
  }

  /** The amount cell, computed in the PDF markup on its own. */
  function AmountCell(area: int, rate: real): real
  {
    if area as real * rate < MinimumCharge then MinimumCharge else area as real * rate
  }

  /**
   * The two cells agree with each other and with the calculator: the note says
   * "Minimum Charge" exactly when the amount is the floor rather than area
   * times rate, and the amount is the calculator's lawn cost.
   */
  lemma LawnRowConsistent(area: int, rate: real)
    ensures AmountCell(area, rate) == LawnCost(area, rate)
    ensures DetailCell(area, rate) == MinimumChargeNote
        <==> AmountCell(area, rate) == MinimumCharge && AmountCell(area, rate) != area as real * rate
  {
  }

  // ---------------------------------------------------------------------------
  // Saving
  // ---------------------------------------------------------------------------

  /** Why a save is refused before anything is stored. */
  datatype SaveError = AreaNotMeasured

  /** The row inserted into the `estimates` table; `None` is `null`. */
  datatype EstimateRow = EstimateRow(
    name: string, address: string, phone: string, email: string,
    lawnArea: int, notes: string, rateUsed: real,
    extraLabel: Option<string>, extraPrice: JsNumber, finalPrice: real)

  /**
   * The row exactly as `handleSave` builds it: refused with no area; an
   * inactive fee stores a null label and 0; an active fee stores its label and
   * `parseFloat(price)`, which is NaN for a cleared input; the final price is
   * the stored total.
   */
  function SaveRecordAsWritten(s: AppState): (r: Result<EstimateRow, SaveError>)
    ensures r.Err? <==> s.totalArea == 0
    ensures r.Ok? ==> (r.value.name == s.customer.name && r.value.address == s.customer.address
                       && r.value.phone == s.customer.phone && r.value.email == s.customer.email
                       && r.value.notes == s.customer.notes)
    ensures r.Ok? ==> r.value.lawnArea == s.totalArea && r.value.rateUsed == s.pricing.ratePerSqFt
    ensures r.Ok? && !s.pricing.customExtra.active ==> r.value.extraLabel == None && r.value.extraPrice == Num(0.0)
    ensures r.Ok? && s.pricing.customExtra.active ==> r.value.extraLabel == Some(s.pricing.customExtra.text)
    ensures r.Ok? && s.pricing.customExtra.active ==> (r.value.extraPrice == NaN <==> s.pricing.customExtra.price == None)
    ensures r.Ok? && s.pricing.customExtra.active && s.pricing.customExtra.price.Some?
        ==> r.value.extraPrice == Num(s.pricing.customExtra.price.value)
    ensures r.Ok? ==> r.value.finalPrice == s.pricing.finalTotal
  {
    if s.totalArea == 0 then Err(AreaNotMeasured)
    else
      var extra := s.pricing.customExtra;
      Ok(EstimateRow(
        s.customer.name, s.customer.address, s.customer.phone, s.customer.email,
        s.totalArea, s.customer.notes, s.pricing.ratePerSqFt,
        if extra.active then Some(extra.text) else None,
        if extra.active then ParseFloat(extra.price) else Num(0.0),
        s.pricing.finalTotal))
  }

  /**
   * An active fee whose price was cleared is stored as NaN while the saved
   * total counted it as zero.
   */
  lemma BlankFeeStoredAsNaN()
    ensures var s := AppState(EmptyCustomer, 5000,
                              DefaultPricing.(finalTotal := 100.0, customExtra := CustomExtra(true, "Edging", None)));
      Synced(s) && SaveRecordAsWritten(s).Ok?
      && SaveRecordAsWritten(s).value.extraPrice == NaN
      && SaveRecordAsWritten(s).value.finalPrice == 100.0
  {
  }

  /**
   * The row `handleSave` stores, with an active fee read as the total reads
   * it: refused with no area; an inactive fee stores a null label and 0; the
   * row carries the form's customer, area, rate and stored total.
   */
  function SaveRecord(s: AppState): (r: Result<EstimateRow, SaveError>)
    ensures r.Err? <==> s.totalArea == 0
    ensures r.Ok? ==> (r.value.name == s.customer.name && r.value.address == s.customer.address
                       && r.value.phone == s.customer.phone && r.value.email == s.customer.email
                       && r.value.notes == s.customer.notes)
    ensures r.Ok? ==> r.value.lawnArea == s.totalArea && r.value.rateUsed == s.pricing.ratePerSqFt
    ensures r.Ok? ==> r.value.extraPrice.Num?
    ensures r.Ok? && !s.pricing.customExtra.active ==> r.value.extraLabel == None && r.value.extraPrice == Num(0.0)
    ensures r.Ok? && s.pricing.customExtra.active ==> r.value.extraLabel == Some(s.pricing.customExtra.text)
    ensures r.Ok? ==> r.value.extraPrice == Num(ExtraCost(s.pricing.customExtra))
    ensures r.Ok? ==> r.value.finalPrice == s.pricing.finalTotal
  {
    if s.totalArea == 0 then Err(AreaNotMeasured)
    else
      var extra := s.pricing.customExtra;
      Ok(EstimateRow(
        s.customer.name, s.customer.address, s.customer.phone, s.customer.email,
        s.totalArea, s.customer.notes, s.pricing.ratePerSqFt,
        if extra.active then Some(extra.text) else None,
        Num(ExtraCost(extra)),
        s.pricing.finalTotal))
  }

  /**
   * The two records differ only where an active fee's price was cleared: they
   * are refused alike, and otherwise they are the same row.
   */
  lemma SaveRecordsAgree(s: AppState)
    ensures SaveRecordAsWritten(s).Err? <==> SaveRecord(s).Err?
    ensures !(s.pricing.customExtra.active && s.pricing.customExtra.price == None)
        ==> SaveRecordAsWritten(s) == SaveRecord(s)
  {
  }

  /** A saved row adds up: its total is the floored lawn line plus the stored fee. */
  lemma SavedRowAddsUp(s: AppState)
    requires Synced(s) && SaveRecord(s).Ok?
    ensures SaveRecord(s).value.finalPrice
         == LawnCost(s.totalArea, s.pricing.ratePerSqFt) + SaveRecord(s).value.extraPrice.value
    ensures SaveRecord(s).value.finalPrice >= MinimumCharge + SaveRecord(s).value.extraPrice.value
  {
  }

  // ---------------------------------------------------------------------------
  // Reset
  // ---------------------------------------------------------------------------

  /** `resetEverything`: blank customer, no area, default pricing. */
  function ResetEverything(s: AppState): (r: AppState)
    ensures r.customer == EmptyCustomer && r.totalArea == 0
    ensures r.pricing.ratePerSqFt == DefaultRate && r.pricing.finalTotal == 0.0
    ensures !r.pricing.customExtra.active && r.pricing.customExtra.text == ""
    ensures r.pricing.customExtra.price == Some(0.0)
  {
    AppState(EmptyCustomer, 0, DefaultPricing)
  }

  /**
   * After a reset nothing can be saved until an area is measured, and the
   * pricing then computes the $50 minimum although the stored total reads 0.
   */
  lemma ResetRefusesSave(s: AppState)
    ensures SaveRecord(ResetEverything(s)) == Err(AreaNotMeasured)
    ensures FinalTotal(0, ResetEverything(s).pricing) == MinimumCharge
    ensures ResetEverything(ResetEverything(s)) == ResetEverything(s)
  {
  }

  // ---------------------------------------------------------------------------
  // PDF file name
  // ---------------------------------------------------------------------------

  /** `Sharp_Estimate_` for the internal copy, `Customer_Estimate_` otherwise. */
  function FilePrefix(kind: string): (r: string)
    ensures SafeNames.IsFileNameSafe(r)
    ensures |r| > 0 && r[0] == if kind == "sharp" then 'S' else 'C'
  {
    var internal, customer, suffix := "Sharp", "Customer", "_Estimate_";
    assert internal == ['S', 'h', 'a', 'r', 'p'];
    assert customer == ['C', 'u', 's', 't', 'o', 'm', 'e', 'r'];
    assert suffix == ['_', 'E', 's', 't', 'i', 'm', 'a', 't', 'e', '_'];
    (if kind == "sharp" then internal else customer) + suffix
  }

  /** The saved file's name: prefix, safe name, `.pdf`. */
  function PdfFileName(kind: string, name: string): string
  {
    FilePrefix(kind) + SafeNames.SafeName(name) + ".pdf"
  }

  /**
   * The file name holds only ASCII letters, digits, `_` and `.`, and the safe
   * name can be read back from between the prefix and the extension.
   */
  lemma PdfFileNameShape(kind: string, name: string)
    ensures var f := PdfFileName(kind, name);
      SafeNames.IsFileNameSafe(f)
      && f[|FilePrefix(kind)|..|f| - 4] == SafeNames.SafeName(name)
      && f[|f| - 4..] == ".pdf"
  {
    SafeNames.PdfNameShape(FilePrefix(kind), name);
  }

  /** The internal and the customer copy of one estimate never share a file name. */
  lemma CopiesNamedApart(kind: string, name: string)
    requires kind != "sharp"
    ensures PdfFileName(kind, name) != PdfFileName("sharp", name)
  {
    assert PdfFileName(kind, name)[0] == FilePrefix(kind)[0] == 'C';
    assert PdfFileName("sharp", name)[0] == FilePrefix("sharp")[0] == 'S';
  }

  // ---------------------------------------------------------------------------
  // The stored total after a reset
  // ---------------------------------------------------------------------------

  /**
   * As written: a lawn saved below the minimum leaves the effect's dependency
   * at $50; the reset stores 0 while the computed total is still $50, so the
   * effect does not run, and neither does it when the next small lawn is
   * measured. That lawn, with the customer's name and address typed in, is
   * saved with a final price of 0 although $50 is owed.
   */
  lemma StaleTotalAfterReset(s: AppState, measured: int)
    requires s.totalArea != 0 && !s.pricing.customExtra.active
    requires s.totalArea as real * s.pricing.ratePerSqFt < MinimumCharge
    requires 0 < measured && measured as real * DefaultRate < MinimumCharge
    ensures var reset := PricingEffectAsWritten(ResetEverything(s), Some(FinalTotal(s.totalArea, s.pricing)));
      var priced := PricingEffectAsWritten(reset.0.(customer := SampleCustomer, totalArea := measured), reset.1).0;
      FormComplete(priced.customer)
      && SaveRecordAsWritten(priced).Ok? && SaveRecordAsWritten(priced).value.finalPrice == 0.0
      && FinalTotal(priced.totalArea, priced.pricing) == MinimumCharge
  {
  }

  /** With the total always re-stored, the same steps save the $50 that is owed. */
  lemma SyncedTotalAfterReset(s: AppState, measured: int)
    requires 0 < measured && measured as real * DefaultRate < MinimumCharge
    ensures var priced := PricingEffect(PricingEffect(ResetEverything(s)).(customer := SampleCustomer, totalArea := measured));
      FormComplete(priced.customer) && SaveRecordAsWritten(priced).Ok? && SaveRecordAsWritten(priced).value.finalPrice == MinimumCharge
  {
  }
}
