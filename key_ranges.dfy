/**
 * IDBKeyRange of the W3C Indexed Database API, over integer keys: a lower and an
 * upper bound, each absent or present and each open or closed.
 */
module KeyRanges {
  import opened Wrappers

  datatype KeyRange = KeyRange(lower: Option<int>, upper: Option<int>, lowerOpen: bool, upperOpen: bool)

  /** "In range", section 2.9 (Key range) of the Indexed Database API. */
  predicate Includes(r: KeyRange, key: int) {
    && (r.lower.None? || r.lower.value < key || (r.lower.value == key && !r.lowerOpen))
    && (r.upper.None? || key < r.upper.value || (r.upper.value == key && !r.upperOpen))
  }

  /** `IDBKeyRange.only(value)` */
  function Only(value: int): (r: KeyRange)
    ensures forall key :: Includes(r, key) <==> key == value
  {
    KeyRange(Some(value), Some(value), false, false)
  }

  /**
   * `IDBKeyRange.bound(lower, upper, lowerOpen, upperOpen)`: throws a DataError when
   * lower is greater than upper, or when they are equal and either end is open.
   */
  function Bound(lower: int, upper: int, lowerOpen: bool, upperOpen: bool): (r: Result<KeyRange, Exception>)
    ensures r.Err? <==> lower > upper || (lower == upper && (lowerOpen || upperOpen))
    ensures r.Err? ==> r.error.name == "DataError"
    ensures r.Ok? ==> forall key :: Includes(r.value, key) <==>
      (if lowerOpen then lower < key else lower <= key) && (if upperOpen then key < upper else key <= upper)
  {
    if lower > upper || (lower == upper && (lowerOpen || upperOpen)) then
      Err(DataError("The lower key is greater than the upper key, or the range is empty"))
    else
      Ok(KeyRange(Some(lower), Some(upper), lowerOpen, upperOpen))
  }

  /** `IDBKeyRange.lowerBound(value, open)` */
  function LowerBound(value: int, open: bool): (r: KeyRange)
    ensures forall key :: Includes(r, key) <==> (if open then value < key else value <= key)
  {
    KeyRange(Some(value), None, open, true)
  }

  /** `IDBKeyRange.upperBound(value, open)` */
  function UpperBound(value: int, open: bool): (r: KeyRange)
    ensures forall key :: Includes(r, key) <==> (if open then key < value else key <= value)
  {
    KeyRange(None, Some(value), true, open)
  }
}
