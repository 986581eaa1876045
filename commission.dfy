/** `get_commission_rate`: the per-vertical rate read from the single row of
    charges_and_commissions, with 0.8 when the row is missing. The function's own comment calls
    the value the payee's share; the payment handlers use it as the platform's fraction (a
    vendor is owed total * (1 - rate)), and so does this model. */
module Commission {
  import opened Wrappers
  import opened Store

  datatype CommissionError = UnknownOrderType(orderType: string)

  const FallbackRate: real := 0.8

  /** The order types the column map knows about. */
  predicate KnownOrderType(orderType: string) {
    orderType in {"DELIVERY", "FOOD", "LAUNDRY", "PRODUCT"}
  }

  /** The column map. */
  function ColumnFor(orderType: string): (c: Option<string>)
    ensures c.Some? <==> KnownOrderType(orderType)
  {
    if orderType == "DELIVERY" then Some("delivery_commission_percentage")
    else if orderType == "FOOD" then Some("food_commission_percentage")
    else if orderType == "LAUNDRY" then Some("laundry_commission_percentage")
    else if orderType == "PRODUCT" then Some("product_commission_percentage")
    else None
  }

  /** Reading one percentage column of the charges row by name. */
  function ColumnValue(row: ChargesRow, column: string): real {
    if column == "delivery_commission_percentage" then row.deliveryCommissionPercentage
    else if column == "food_commission_percentage" then row.foodCommissionPercentage
    else if column == "laundry_commission_percentage" then row.laundryCommissionPercentage
    else row.productCommissionPercentage
  }

  function GetCommissionRate(orderType: string, config: Option<ChargesRow>): (r: Result<real, CommissionError>)
    ensures r.Failure? <==> !KnownOrderType(orderType)
    ensures r.Failure? ==> r.error == UnknownOrderType(orderType)
    ensures KnownOrderType(orderType) && config.None? ==> r == Success(FallbackRate)
  {
    match ColumnFor(orderType)
    case None => Failure(UnknownOrderType(orderType))
    case Some(column) =>
      match config
      case None => Success(FallbackRate)
      case Some(row) => Success(ColumnValue(row, column))
  }

  /** Each known order type reads its own column of the row, and no other. */
  lemma RateReadsOwnColumn(row: ChargesRow)
    ensures GetCommissionRate("DELIVERY", Some(row)) == Success(row.deliveryCommissionPercentage)
    ensures GetCommissionRate("FOOD", Some(row)) == Success(row.foodCommissionPercentage)
    ensures GetCommissionRate("LAUNDRY", Some(row)) == Success(row.laundryCommissionPercentage)
    ensures GetCommissionRate("PRODUCT", Some(row)) == Success(row.productCommissionPercentage)
  {
  }

  /** Distinct order types map to distinct columns. */
  lemma ColumnsDistinct(a: string, b: string)
    requires KnownOrderType(a) && KnownOrderType(b) && a != b
    ensures ColumnFor(a) != ColumnFor(b)
  {
  }

  /** The escrow service's order type is not in the column map: the lookup always fails. */
  lemma EscrowAgreementUnknown(config: Option<ChargesRow>)
    ensures GetCommissionRate("ESCROW_AGREEMENT", config) == Failure(UnknownOrderType("ESCROW_AGREEMENT"))
  {
  }
}
