/**
 * The argument sink's vocabulary: the keywords the aggregate options emit and
 * the kinds of token the sink accepts (plain strings, integers, codec-encoded
 * keys and codec-encoded values).
 */
module Tokens {

  /** The search-module keywords used by the aggregate options. */
  datatype Keyword = VERBATIM | LOAD | AS | PARAMS | TIMEOUT

  /**
   * One wire argument. `Key` and `Value` stand for whatever the connection's
   * codec makes of a key or a value; the encoder only positions them.
   */
  datatype Token<K, V> =
    | Kw(keyword: Keyword)
    | Str(text: string)
    | Int(number: int)
    | Key(key: K)
    | Value(value: V)

  /** Java's 64-bit `long`, the type of the timeout. */
  type Long = x: int | -0x8000_0000_0000_0000 <= x < 0x8000_0000_0000_0000

  /** Java's 32-bit `int` range. */
  predicate IsInt32(x: int) {
    -0x8000_0000 <= x < 0x8000_0000
  }

  /** The value Java's wrapping `int` arithmetic leaves for the mathematical result `x`. */
  function ToInt32(x: int): (r: int)
    ensures IsInt32(r)
    ensures (x - r) % 0x1_0000_0000 == 0
    ensures IsInt32(x) ==> r == x
  {
    var m := x % 0x1_0000_0000;
    if m < 0x8000_0000 then m else m - 0x1_0000_0000
  }
}
