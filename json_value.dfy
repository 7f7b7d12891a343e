/**
 * The run-time values a carrier configuration bundle can hand to the JSON
 * formatter. The Java code receives a plain `Object` and dispatches on its
 * run-time class; here that class is an explicit tag.
 */
module JsonValue {

  /** Java `int`: 32-bit two's complement. */
  type Int32 = x: int | -0x8000_0000 <= x < 0x8000_0000

  /** Java `long`: 64-bit two's complement. */
  type Int64 = x: int | -0x8000_0000_0000_0000 <= x < 0x8000_0000_0000_0000

  predicate IsDigit(c: char) {
    '0' <= c <= '9'
  }

  /**
   * Whether `t` can be the text `Double.toString` or `Float.toString` gives:
   * it is never empty and starts with a digit, a minus sign, `N` (NaN) or
   * `I` (Infinity). The digits themselves are Java's floating-point
   * formatting and are not modelled.
   */
  predicate IsFloatText(t: string) {
    |t| > 0 && (IsDigit(t[0]) || t[0] == '-' || t[0] == 'N' || t[0] == 'I')
  }

  type FloatText = t: string | IsFloatText(t) witness "0.0"

  /** One value as the formatter sees it, tagged by its Java run-time class. */
  datatype Value =
    | Null                          // a null reference
    | Bool(b: bool)                 // java.lang.Boolean
    | Int(i: Int32)                 // java.lang.Integer
    | Long(l: Int64)                // java.lang.Long
    | Double(d: FloatText)          // java.lang.Double, by its toString() text
    | Float(f: FloatText)           // java.lang.Float, by its toString() text
    | Str(s: string)                // java.lang.String
    | ObjArray(elems: seq<Value>)   // Object[] (String[], Integer[], ...)
    | IntArray(ints: seq<Int32>)    // int[]
    | OtherArray(arrayText: string) // any other primitive array (long[], boolean[], ...), by its toString() text
    | Other(text: string)           // any other object, by its toString() text
}
