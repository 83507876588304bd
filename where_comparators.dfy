/**
 * The comparator library of the where-conditions: seven predicates, each evaluated
 * against the comparison value of the condition it is bound to. Values are integers;
 * a comparison value of the wrong shape (a pair where a scalar is expected, a key
 * range, ...) makes every comparison false, as JavaScript's `===`, `<` and `>` do
 * when one side is an array, an object or `undefined`.
 */
module WhereComparators {
  import opened KeyRanges

  datatype ComparisonType = EQUALS | BETWEEN | RANGE | GREATERTHAN | GREATERTHANEQUAL | LESSTHAN | LESSTHANEQUAL

  /** What a condition stores as `_comparisonValue`. */
  datatype ComparisonValue =
    | Scalar(v: int)              // a FIELD condition's single value
    | Pair(lo: int, hi: int)      // a FIELD condition's `[value1, value2]`
    | KeyRangeValue(range: KeyRange)  // the descriptor of an INDEX or KEYPATH condition

  predicate Equals(cv: ComparisonValue, value: int) { cv.Scalar? && value == cv.v }

  predicate Between(cv: ComparisonValue, value: int) { cv.Pair? && value > cv.lo && value < cv.hi }

  predicate Range(cv: ComparisonValue, value: int) { cv.Pair? && value >= cv.lo && value <= cv.hi }

  predicate GreaterThan(cv: ComparisonValue, value: int) { cv.Scalar? && value > cv.v }

  predicate GreaterThanEqual(cv: ComparisonValue, value: int) { cv.Scalar? && value >= cv.v }

  predicate LessThan(cv: ComparisonValue, value: int) { cv.Scalar? && value < cv.v }

  predicate LessThanEqual(cv: ComparisonValue, value: int) { cv.Scalar? && value <= cv.v }

  /** `comparators[type]`: the comparator named by a comparison type. */
  predicate Compare(t: ComparisonType, cv: ComparisonValue, value: int) {
    match t
    case EQUALS => Equals(cv, value)
    case BETWEEN => Between(cv, value)
    case RANGE => Range(cv, value)
    case GREATERTHAN => GreaterThan(cv, value)
    case GREATERTHANEQUAL => GreaterThanEqual(cv, value)
    case LESSTHAN => LessThan(cv, value)
    case LESSTHANEQUAL => LessThanEqual(cv, value)
  }

  /** EQUALS is strict equality with the comparison value and nothing else. */
  lemma EqualsIsIdentity(c: int, value: int)
    ensures Equals(Scalar(c), value) <==> value == c
    ensures forall lo, hi :: !Equals(Pair(lo, hi), value)
  {
  }

  /** BETWEEN excludes both ends, RANGE includes both ends. */
  lemma BoundaryBehaviour(lo: int, hi: int)
    ensures !Between(Pair(lo, hi), lo) && !Between(Pair(lo, hi), hi)
    ensures lo <= hi ==> Range(Pair(lo, hi), lo) && Range(Pair(lo, hi), hi)
  {
  }

  /** RANGE is BETWEEN plus its two bounds, for a pair the key-range constructor accepts. */
  lemma RangeIsBetweenOrBound(lo: int, hi: int, value: int)
    requires lo <= hi
    ensures Range(Pair(lo, hi), value) <==> Between(Pair(lo, hi), value) || value == lo || value == hi
  {
  }

  /** GREATERTHAN and LESSTHAN are strict, their -EQUAL variants inclusive. */
  lemma StrictAndInclusive(c: int)
    ensures !GreaterThan(Scalar(c), c) && GreaterThanEqual(Scalar(c), c)
    ensures !LessThan(Scalar(c), c) && LessThanEqual(Scalar(c), c)
  {
  }

  /** Over the total order of the integers the seven comparators are related as usual. */
  lemma TotalOrderRelations(c: int, value: int)
    ensures GreaterThanEqual(Scalar(c), value) <==> GreaterThan(Scalar(c), value) || Equals(Scalar(c), value)
    ensures LessThanEqual(Scalar(c), value) <==> !GreaterThan(Scalar(c), value)
    ensures LessThan(Scalar(c), value) <==> !GreaterThanEqual(Scalar(c), value)
  {
  }
}
