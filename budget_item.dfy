/** The `BudgetItem` record: a priced, optionally time-bounded, optionally
    repeating expense, with the field validation `full_clean` applies to it
    and the rule that says whether it is active in a given month. */
module BudgetItems {
  import opened Wrappers
  import opened Dates

  /** Money as a whole number of cents: the cost column holds exactly two
      decimal places, so every stored cost is an integer number of cents. */
  type Cents = int

  /** A decimal number as Python's `Decimal` holds it: `unscaled / 10^places`.
      `Decimal('12.50')` is `Decimal(1250, 2)`, `Decimal('0.01')` is `Decimal(1, 2)`. */
  datatype Decimal = Decimal(unscaled: int, places: nat)

  function Pow10(n: nat): (r: nat)
    ensures r >= 1
  {
    if n == 0 then 1 else 10 * Pow10(n - 1)
  }

  /** A stored budget item. The start date is required; the end date is a
      nullable column, absent meaning "never expires". */
  datatype BudgetItem = BudgetItem(
    name: string,
    owner: string,
    cost: Cents,
    repeats: bool,
    startdate: Date,
    endDate: Option<Date>)

  /** The field values of a budget item before validation: the cost is any
      decimal or missing, and the start date may be missing too. */
  datatype Draft = Draft(
    name: string,
    owner: string,
    cost: Option<Decimal>,
    repeats: bool,
    startdate: Option<Date>,
    endDate: Option<Date>)

  /** The validation errors `full_clean` can report for the fields modelled here. */
  datatype FieldError =
    | CostRequired              // the non-nullable cost is missing
    | CostTooManyDecimalPlaces  // more than the column's 2 decimal places
    | CostBelowMinimum          // less than the minimum value 0.01
    | StartDateRequired         // the non-nullable start date is missing

  /** The cost decimal is at least 0.01, compared exactly:
      unscaled / 10^places >= 1 / 100. */
  predicate AtLeastOneCent(d: Decimal) {
    d.unscaled * 100 >= Pow10(d.places)
  }

  /** The cost in cents of a decimal with at most two places. */
  function ToCents(d: Decimal): (c: Cents)
    requires d.places <= 2
    ensures c * Pow10(d.places) == d.unscaled * 100
    ensures c >= 1 <==> AtLeastOneCent(d)
  {
    if d.places == 0 then d.unscaled * 100
    else if d.places == 1 then d.unscaled * 10
    else d.unscaled
  }

  /** Field validation of a budget item (`full_clean`): every failing rule is
      reported at once, as Django collects validation errors per field; a
      missing cost is reported as missing and its validators do not run; a
      draft that passes becomes a budget item with the exact same cost. */
  function FullClean(d: Draft): (r: Result<BudgetItem, set<FieldError>>)
    ensures r.Success? <==>
      d.cost.Some? && d.cost.value.places <= 2 && AtLeastOneCent(d.cost.value) && d.startdate.Some?
    ensures r.Success? ==>
      && r.value.cost >= 1
      && r.value.cost * Pow10(d.cost.value.places) == d.cost.value.unscaled * 100
      && Some(r.value.startdate) == d.startdate
      && r.value.endDate == d.endDate
      && r.value.repeats == d.repeats
      && r.value.name == d.name && r.value.owner == d.owner
    ensures r.Failure? ==>
      && (CostRequired in r.error <==> d.cost.None?)
      && (CostTooManyDecimalPlaces in r.error <==> d.cost.Some? && d.cost.value.places > 2)
      && (CostBelowMinimum in r.error <==> d.cost.Some? && !AtLeastOneCent(d.cost.value))
      && (StartDateRequired in r.error <==> d.startdate.None?)
  {
    var costErrors :=
      match d.cost
      case None => {CostRequired}
      case Some(c) =>
        (if c.places > 2 then {CostTooManyDecimalPlaces} else {})
        + (if !AtLeastOneCent(c) then {CostBelowMinimum} else {});
    var errors := costErrors + (if d.startdate.None? then {StartDateRequired} else {});
    if errors == {} then
      Success(BudgetItem(d.name, d.owner, ToCents(d.cost.value), d.repeats, d.startdate.value, d.endDate))
    else
      Failure(errors)
  }

  /** A budget item is active in `month` when it repeats, has started on or
      before that date, and has no end date or ends on or after it. */
  predicate IsActive(b: BudgetItem, month: Date) {
    && b.repeats
    && Le(b.startdate, month)
    && (b.endDate.None? || Le(month, b.endDate.value))
  }

  /** Non-repeating, not-yet-started and expired items are never active. */
  lemma InactiveCases(b: BudgetItem, month: Date)
    ensures !b.repeats ==> !IsActive(b, month)
    ensures Lt(month, b.startdate) ==> !IsActive(b, month)
    ensures b.endDate.Some? && Lt(b.endDate.value, month) ==> !IsActive(b, month)
  {
  }

  /** The months in which an item is active form an interval: an item active
      in two months is active in every month between them. */
  lemma ActiveMonthsAreAnInterval(b: BudgetItem, m1: Date, m2: Date, m3: Date)
    requires IsActive(b, m1) && IsActive(b, m3)
    requires Le(m1, m2) && Le(m2, m3)
    ensures IsActive(b, m2)
  {
    LeIsTotalOrder(b.startdate, m1, m2);
    if b.endDate.Some? {
      LeIsTotalOrder(m2, m3, b.endDate.value);
    }
  }

  /** Nothing rejects an end date before the start date; such an item is
      never active in any month. */
  lemma InvertedRangeNeverActive(b: BudgetItem, month: Date)
    requires b.endDate.Some? && Lt(b.endDate.value, b.startdate)
    ensures !IsActive(b, month)
  {
    if IsActive(b, month) {
      LeIsTotalOrder(b.startdate, month, b.endDate.value);
      LeIsTotalOrder(b.endDate.value, b.startdate, b.startdate);
    }
  }
}
