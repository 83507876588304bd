/**
 * One filter term of a query: a name (field path, index name or key path), a kind,
 * and the comparison set on it. Index and key-path conditions store an IDBKeyRange
 * descriptor for the engine's range scan; field conditions store the raw value (or
 * pair) for the in-memory comparators. Every comparison method returns the owning
 * query, of type P, for chaining.
 */
module WhereCondition {
  import opened Wrappers
  import opened KeyRanges
  import opened WhereComparators

  datatype ConditionType = INDEX | FIELD | KEYPATH

  class WhereConditionWrapper<P> {
    const parentQuery: P
    const conditionType: ConditionType
    const name: string
    const usesField: bool
    var range: Option<KeyRange>
    var comparisonValue: Option<ComparisonValue>
    var comparisonType: Option<ComparisonType>

    /**
     * The object invariant: `_usesField` is fixed by the kind, a comparison type is
     * only ever recorded together with its value, and the value has the shape the
     * kind and the comparison type call for.
     */
    ghost predicate Valid()
      reads this
    {
      && usesField == (conditionType == FIELD)
      && (comparisonType.Some? ==> comparisonValue.Some?)
      && (comparisonType.None? ==> comparisonValue.None?)
      && (comparisonValue.Some? ==> (comparisonValue.value.KeyRangeValue? <==> !usesField))
      && (comparisonType.Some? && usesField ==>
            (comparisonValue.value.Pair? <==> comparisonType.value in {BETWEEN, RANGE}))
    }

    constructor(name: string, conditionType: ConditionType, parentQuery: P)
      ensures Valid()
      ensures this.name == name && this.conditionType == conditionType && this.parentQuery == parentQuery
      ensures usesField <==> conditionType == FIELD
      ensures range.None? && comparisonValue.None? && comparisonType.None?
    {
      this.parentQuery := parentQuery;
      this.conditionType := conditionType;
      this.name := name;
      this.usesField := conditionType == FIELD;
      this.range := None;
      this.comparisonValue := None;
      this.comparisonType := None;
    }

    /** `_setComparisonTypeAndReturnParent` */
    method SetComparisonTypeAndReturnParent(t: ComparisonType) returns (parent: P)
      modifies this`comparisonType
      ensures comparisonType == Some(t)
      ensures parent == parentQuery
    {
      comparisonType := Some(t);
      parent := parentQuery;
    }

    /** `getCondition`: the stored comparison value, unchanged. */
    function GetCondition(): (c: Option<ComparisonValue>)
      reads this
      ensures c == comparisonValue
    {
      comparisonValue
    }

    /** `getName` */
    function GetName(): (n: string)
      reads this
      ensures n == name
    {
      name
    }

    /** `isType` */
    predicate IsType(t: ConditionType)
      reads this
    {
      conditionType == t
    }

    /**
     * `getComparator`: only field conditions have one; it is the comparator named by
     * the current comparison type (looking up a missing type and binding it is a
     * TypeError in the source).
     */
    function GetComparator(): (r: Result<ComparisonType, Exception>)
      reads this
      ensures r.Ok? <==> IsType(FIELD) && comparisonType.Some?
      ensures !IsType(FIELD) ==> r == Err(Error("only field where conditions can generate comparators"))
      ensures r.Ok? ==> r.value == comparisonType.value
    {
      if !IsType(FIELD) then Err(Error("only field where conditions can generate comparators"))
      else if comparisonType.None? then Err(TypeError("Cannot read property 'bind' of undefined"))
      else Ok(comparisonType.value)
    }

    /**
     * Whether the condition selects `key` now: the descriptor's "in range" for an
     * index or key-path condition, the bound comparator for a field condition. The
     * comparator reads the condition's state when it is called, not when it was
     * obtained, so a later comparison method changes what it answers.
     */
    predicate Selects(key: int)
      reads this
      requires comparisonType.Some? && comparisonValue.Some?
    {
      match comparisonValue.value
      case KeyRangeValue(r) => Includes(r, key)
      case _ => Compare(comparisonType.value, comparisonValue.value, key)
    }

    /** `_setComparisonValue(a, b)`: b for a field condition, a otherwise. */
    method SetComparisonValue(a: KeyRange, b: ComparisonValue)
      modifies this`comparisonValue
      ensures comparisonValue == Some(if usesField then b else KeyRangeValue(a))
    {
      comparisonValue := if usesField then Some(b) else Some(KeyRangeValue(a));
    }

    /** `equals`, the handler shared with `only`. */
    method Equals(value: int) returns (parent: P)
      requires Valid()
      modifies this
      ensures Valid() && parent == parentQuery
      ensures unchanged(this`range)
      ensures comparisonType == Some(EQUALS)
      ensures comparisonValue == Some(if usesField then Scalar(value) else KeyRangeValue(KeyRanges.Only(value)))
      ensures forall key :: Selects(key) <==> Compare(EQUALS, Scalar(value), key)
    {
      SetComparisonValue(KeyRanges.Only(value), Scalar(value));
      parent := SetComparisonTypeAndReturnParent(EQUALS);
    }

    /** `only`: the same handler as `equals`. */
    method Only(value: int) returns (parent: P)
      requires Valid()
      modifies this
      ensures Valid() && parent == parentQuery
      ensures unchanged(this`range)
      ensures comparisonType == Some(EQUALS)
      ensures comparisonValue == Some(if usesField then Scalar(value) else KeyRangeValue(KeyRanges.Only(value)))
      ensures forall key :: Selects(key) <==> Compare(EQUALS, Scalar(value), key)
    {
      parent := Equals(value);
    }

    /**
     * `between`: both ends excluded. The key range is built before the kind is
     * looked at, so a pair the range constructor refuses throws for every kind.
     */
    method Between(value1: int, value2: int) returns (r: Result<P, Exception>)
      requires Valid()
      modifies this
      ensures Valid()
      ensures r.Err? <==> value1 >= value2
      ensures r.Err? ==> r.error.name == "DataError" && unchanged(this)
      ensures r.Ok? ==> r.value == parentQuery && comparisonType == Some(BETWEEN) && unchanged(this`range)
      ensures r.Ok? ==> comparisonValue == Some(if usesField then Pair(value1, value2)
                                                else KeyRangeValue(KeyRange(Some(value1), Some(value2), true, true)))
      ensures r.Ok? ==> forall key :: Selects(key) <==> Compare(BETWEEN, Pair(value1, value2), key)
    {
      var bound := Bound(value1, value2, true, true);
      if bound.Err? {
        return Err(bound.error);
      }
      SetComparisonValue(bound.value, Pair(value1, value2));
      var parent := SetComparisonTypeAndReturnParent(BETWEEN);
      r := Ok(parent);
    }

    /** `range`: both ends included; throws like `between` for a refused pair. */
    method Range(value1: int, value2: int) returns (r: Result<P, Exception>)
      requires Valid()
      modifies this
      ensures Valid()
      ensures r.Err? <==> value1 > value2
      ensures r.Err? ==> r.error.name == "DataError" && unchanged(this)
      ensures r.Ok? ==> r.value == parentQuery && comparisonType == Some(RANGE) && unchanged(this`range)
      ensures r.Ok? ==> comparisonValue == Some(if usesField then Pair(value1, value2)
                                                else KeyRangeValue(KeyRange(Some(value1), Some(value2), false, false)))
      ensures r.Ok? ==> forall key :: Selects(key) <==> Compare(RANGE, Pair(value1, value2), key)
    {
      var bound := Bound(value1, value2, false, false);
      if bound.Err? {
        return Err(bound.error);
      }
      SetComparisonValue(bound.value, Pair(value1, value2));
      var parent := SetComparisonTypeAndReturnParent(RANGE);
      r := Ok(parent);
    }

    /** `greaterThan`: an open lower bound. */
    method GreaterThan(value: int) returns (parent: P)
      requires Valid()
      modifies this
      ensures Valid() && parent == parentQuery
      ensures unchanged(this`range)
      ensures comparisonType == Some(GREATERTHAN)
      ensures comparisonValue == Some(if usesField then Scalar(value) else KeyRangeValue(LowerBound(value, true)))
      ensures forall key :: Selects(key) <==> Compare(GREATERTHAN, Scalar(value), key)
    {
      SetComparisonValue(LowerBound(value, true), Scalar(value));
      parent := SetComparisonTypeAndReturnParent(GREATERTHAN);
    }

    /** `greaterThanEqual`: a closed lower bound. */
    method GreaterThanEqual(value: int) returns (parent: P)
      requires Valid()
      modifies this
      ensures Valid() && parent == parentQuery
      ensures unchanged(this`range)
      ensures comparisonType == Some(GREATERTHANEQUAL)
      ensures comparisonValue == Some(if usesField then Scalar(value) else KeyRangeValue(LowerBound(value, false)))
      ensures forall key :: Selects(key) <==> Compare(GREATERTHANEQUAL, Scalar(value), key)
    {
      SetComparisonValue(LowerBound(value, false), Scalar(value));
      parent := SetComparisonTypeAndReturnParent(GREATERTHANEQUAL);
    }

    /** `lessThan`: an open upper bound. */
    method LessThan(value: int) returns (parent: P)
      requires Valid()
      modifies this
      ensures Valid() && parent == parentQuery
      ensures unchanged(this`range)
      ensures comparisonType == Some(LESSTHAN)
      ensures comparisonValue == Some(if usesField then Scalar(value) else KeyRangeValue(UpperBound(value, true)))
      ensures forall key :: Selects(key) <==> Compare(LESSTHAN, Scalar(value), key)
    {
      SetComparisonValue(UpperBound(value, true), Scalar(value));
      parent := SetComparisonTypeAndReturnParent(LESSTHAN);
    }

    /** `lessThanEqual`: a closed upper bound. */
    method LessThanEqual(value: int) returns (parent: P)
      requires Valid()
      modifies this
      ensures Valid() && parent == parentQuery
      ensures unchanged(this`range)
      ensures comparisonType == Some(LESSTHANEQUAL)
      ensures comparisonValue == Some(if usesField then Scalar(value) else KeyRangeValue(UpperBound(value, false)))
      ensures forall key :: Selects(key) <==> Compare(LESSTHANEQUAL, Scalar(value), key)
    {
      SetComparisonValue(UpperBound(value, false), Scalar(value));
      parent := SetComparisonTypeAndReturnParent(LESSTHANEQUAL);
    }
  }
}
