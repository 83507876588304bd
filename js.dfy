/** The JavaScript values that cross the wrapper's public interface. */
module Js {
  import opened Wrappers
  import opened KeyRanges

  /**
   * A JavaScript value. Numbers are integers (no floating point, no NaN). A function
   * is known by its source text and by the first parameter name that the pattern
   * `function[\s]*\([\s]?(\w+).*?\)` captures from that text, if any.
   */
  datatype Value =
    | Undefined
    | Null
    | Bool(b: bool)
    | Num(n: int)
    | Str(s: string)
    | Arr(elems: seq<Value>)
    | Obj(props: map<string, Value>)
    | KeyRangeObj(range: KeyRange)
    | Func(source: string, param: Option<string>)

  /** JavaScript's boolean coercion (`!!v`). */
  predicate Truthy(v: Value) {
    match v
    case Undefined => false
    case Null => false
    case Bool(b) => b
    case Num(n) => n != 0
    case Str(s) => s != ""
    case _ => true
  }

  /** `typeof v === 'function'` */
  predicate IsFunction(v: Value) { v.Func? }

  /** `Array.isArray(v)` */
  predicate IsArray(v: Value) { v.Arr? }

  /** The empty object literal `{}`. */
  const EmptyObject: Value := Obj(map[])

  /**
   * The properties every plain object inherits from Object.prototype. All but
   * `__proto__` (an accessor holding the prototype) are methods.
   */
  const InheritedNames: set<string> := {
    "constructor", "hasOwnProperty", "isPrototypeOf", "propertyIsEnumerable",
    "toLocaleString", "toString", "valueOf", "__proto__", "__defineGetter__",
    "__defineSetter__", "__lookupGetter__", "__lookupSetter__"}

  /** A non-empty sequence is its first element followed by the rest. */
  lemma SplitFirst<T>(s: seq<T>)
    requires s != []
    ensures s == [s[0]] + s[1..]
    ensures forall x :: x in s <==> x == s[0] || x in s[1..]
    ensures multiset(s) == multiset{s[0]} + multiset(s[1..])
  {
    assert s == [s[0]] + s[1..];
  }

  /** Taking one more element appends it. */
  lemma TakeOneMore<T>(s: seq<T>, i: nat)
    requires i < |s|
    ensures s[..i + 1] == s[..i] + [s[i]]
  {
  }

  /** Dropping the first part of a concatenation leaves the second. */
  lemma DropPrefix<T>(x: seq<T>, y: seq<T>)
    ensures (x + y)[|x|..] == y
  {
  }

  /** Dropping the head of a concatenation with a non-empty first part. */
  lemma DropFirstOfConcat<T>(a: seq<T>, b: seq<T>)
    requires a != []
    ensures (a + b)[1..] == a[1..] + b
  {
  }

  /** A non-empty sequence is its front followed by its last element. */
  lemma SplitLast<T>(a: seq<T>, b: seq<T>)
    requires b != []
    ensures b == b[..|b| - 1] + [b[|b| - 1]]
    ensures a + b == (a + b[..|b| - 1]) + [b[|b| - 1]]
  {
    assert b == b[..|b| - 1] + [b[|b| - 1]];
  }

  /** Concatenation is associative. */
  lemma ConcatAssociates<T>(x: seq<T>, y: seq<T>, z: seq<T>)
    ensures x + y + z == x + (y + z)
  {
  }

  /** No element occurs twice. */
  predicate Distinct<T(==)>(xs: seq<T>) {
    forall i, j :: 0 <= i < j < |xs| ==> xs[i] != xs[j]
  }

  function DigitChar(d: nat): char
    requires d < 10
  {
    "0123456789"[d]
  }

  /** The decimal numeral of a natural number. */
  function NatToString(n: nat): (s: string)
    ensures |s| > 0
    decreases n
  {
    if n < 10 then [DigitChar(n)] else NatToString(n / 10) + [DigitChar(n % 10)]
  }

  /** JavaScript's `String(v)`, as used when a value is concatenated into a message. */
  function ToJsString(v: Value): string
    decreases v, 1
  {
    match v
    case Undefined => "undefined"
    case Null => "null"
    case Bool(b) => if b then "true" else "false"
    case Num(n) => if n < 0 then "-" + NatToString(-n) else NatToString(n)
    case Str(s) => s
    case Arr(elems) => JoinElements(elems)
    case Obj(_) => "[object Object]"
    case KeyRangeObj(_) => "[object IDBKeyRange]"
    case Func(source, _) => source
  }

  /** `Array.prototype.join(',')`: `undefined` and `null` elements print as empty. */
  function JoinElements(elems: seq<Value>): string
    decreases elems, 0
  {
    if elems == [] then ""
    else
      var head := if elems[0].Undefined? || elems[0].Null? then "" else ToJsString(elems[0]);
      if |elems| == 1 then head else head + "," + JoinElements(elems[1..])
  }
}
