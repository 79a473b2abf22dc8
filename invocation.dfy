/**
 * The flags object the argument parser hands to cli.js, as a typed record.
 * JavaScript truthiness, which the source tests most flags with, is spelt
 * out here.
 */
module Invocation {
  import opened Outcomes

  /**
   * `--quantity`: absent, a number, or some other value the parser left
   * there (`truthy` records whether JavaScript treats it as true).
   */
  datatype QuantityArg = NoQuantity | QuantityNumber(value: real) | QuantityOther(truthy: bool)

  /** `--autorefresh`: absent, present as `true`, or a number of seconds. */
  datatype RefreshArg = NoRefresh | RefreshBare | RefreshEvery(seconds: real)

  datatype Flags = Flags(
    key: Option<string>,
    decimal: bool,
    save: Option<string>,
    currency: Option<string>,
    list: bool,
    quantity: QuantityArg,
    autorefresh: RefreshArg,
    percentage: Option<string>,
    reset: bool,
    provider: Option<string>)

  /** A string flag in an `if (flag)` test: present and not empty. */
  predicate Truthy(s: Option<string>) {
    s.Some? && s.value != ""
  }

  /** `if (cli.flags.q)`: a number other than 0, or a truthy other value. */
  predicate QuantityTruthy(q: QuantityArg) {
    match q
    case NoQuantity => false
    case QuantityNumber(v) => v != 0.0
    case QuantityOther(t) => t
  }
}
