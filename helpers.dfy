/** The effective date of a transaction: the billing date when there is one
    and it lies within a plausible window around the purchase date, the
    purchase date otherwise. Dates are day numbers. */
module DbHelpers {
  import opened Common

  /** How many days before the purchase a billing date may be. */
  const EarliestOffset: int := 7
  /** How many days after the purchase a billing date may be. */
  const LatestOffset: int := 45

  /** The `CASE` expression of `effectiveDateExpr`; `BETWEEN` includes both ends. */
  function EffectiveDate(date: int, processedDate: Option<int>): (r: int)
    ensures processedDate.None? ==> r == date
    ensures r == date || (processedDate.Some? && r == processedDate.value)
    ensures date - EarliestOffset <= r <= date + LatestOffset
    ensures processedDate.Some? ==>
      (r == processedDate.value <==> date - EarliestOffset <= processedDate.value <= date + LatestOffset)
  {
    if processedDate.Some? && date - EarliestOffset <= processedDate.value <= date + LatestOffset then processedDate.value
    else date
  }
}
