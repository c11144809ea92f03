/**
 * Values both app variants keep in their estimate form: the customer fields,
 * price inputs and JavaScript numbers as the database row receives them.
 */
module EstimateForm {
  import opened Wrappers

  /** The customer block of the form. */
  datatype Customer = Customer(name: string, address: string, phone: string, email: string, notes: string)

  /** The customer block after `setCustomer` with all fields blank. */
  const EmptyCustomer: Customer := Customer("", "", "", "", "")

  /**
   * The browser submits the form only when its `required` name and address
   * inputs are filled in.
   */
  predicate FormComplete(c: Customer)
  {
    c.name != "" && c.address != ""
  }

  /** A customer as typed into the form before a save. */
  const SampleCustomer: Customer := Customer("Dana Reyes", "12 Palm Ave", "", "", "")

  /** The rate per square foot a fresh form starts with. */
  const DefaultRate: real := 0.02

  /** The least the lawn line is ever billed when the floor applies, in dollars. */
  const MinimumCharge: real := 50.0

  /**
   * A price typed into a number input, already parsed: `None` is the empty
   * string the input holds once the user clears it.
   */
  type PriceField = Option<real>

  /** `parseFloat(price || 0)`: a blank price counts as zero. */
  function PriceOrZero(f: PriceField): (r: real)
    ensures f == None ==> r == 0.0
    ensures f != None ==> r == f.value
  {
    match f
    case None => 0.0
    case Some(x) => x
  }

  /** A JavaScript number as stored: a value, or NaN (`parseFloat("")`). */
  datatype JsNumber = Num(value: real) | NaN

  /** `parseFloat(price)` with no fallback: a blank price is NaN. */
  function ParseFloat(f: PriceField): (r: JsNumber)
    ensures r == NaN <==> f == None
    ensures r.Num? ==> r.value == PriceOrZero(f)
  {
    match f
    case None => NaN
    case Some(x) => Num(x)
  }
}
