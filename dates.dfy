/** Calendar dates as the budget model uses them: only compared, never
    shifted, so a date is a (year, month, day) triple ordered lexicographically,
    which is how Python orders `datetime.date` values. */
module Dates {

  datatype Date = Date(year: int, month: int, day: int)

  /** `a <= b` on dates: earlier year, or same year and earlier month, or same
      year and month and not a later day. */
  predicate Le(a: Date, b: Date) {
    a.year < b.year
    || (a.year == b.year && (a.month < b.month || (a.month == b.month && a.day <= b.day)))
  }

  /** `a < b` on dates. */
  predicate Lt(a: Date, b: Date) {
    Le(a, b) && a != b
  }

  /** Le is a total order: reflexive, antisymmetric, transitive and total. */
  lemma LeIsTotalOrder(a: Date, b: Date, c: Date)
    ensures Le(a, a)
    ensures Le(a, b) && Le(b, a) ==> a == b
    ensures Le(a, b) && Le(b, c) ==> Le(a, c)
    ensures Le(a, b) || Le(b, a)
  {
  }
}
