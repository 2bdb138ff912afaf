/**
 * The untyped values of the source (`unknown`): what a profile field resolves to and
 * what a criterion compares against.
 */
module Values {
  import opened ProfileTypes

  datatype Value =
    | Num(n: int)
    | Str(s: string)
    | Bool(b: bool)
    | List(items: seq<Value>)
    | Loc(place: Location)
  {
    /** Numbers, strings and booleans compare by value; arrays and objects by identity. */
    predicate IsPrimitive() {
      Num? || Str? || Bool?
    }
  }

  /**
   * JavaScript's `===` (and the `SameValueZero` of `includes`) on two values. A list or a
   * location is an object, equal only to itself; a profile never shares an object with
   * the catalog, so such a comparison is false.
   */
  predicate StrictEquals(a: Value, b: Value) {
    a.IsPrimitive() && a == b
  }
}
