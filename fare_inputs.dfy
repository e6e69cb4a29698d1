/**
 * The fare and trip inputs: base fare, cost per mile, cost per minute,
 * distance and duration. Each field's change handler parses the text
 * (an unparseable entry is NaN, here `None`) and hands the parent the
 * sanitised number.
 */
module FareInputs {
  import opened Wrappers

  /** The five numeric fields this form edits. */
  datatype FareField = BaseFare | CostPerMile | CostPerMinute | Distance | Duration

  function Max(a: real, b: real): (r: real)
    ensures r >= a && r >= b && (r == a || r == b)
  {
    if a >= b then a else b
  }

  /** `isNaN(val) ? 0 : Math.max(0, val)`: NaN becomes 0, a negative number is
      raised to 0, and any other number passes through unchanged. */
  function NonNegative(raw: Option<real>): (r: real)
    ensures r >= 0.0
    ensures raw.Some? && raw.value >= 0.0 ==> r == raw.value
    ensures raw.Some? && raw.value < 0.0 ==> r == 0.0
    ensures raw.None? ==> r == 0.0
  {
    match raw
    case None => 0.0
    case Some(v) => Max(0.0, v)
  }

  /** Feeding the sanitised number back through the handler changes nothing. */
  lemma NonNegativeIdempotent(raw: Option<real>)
    ensures NonNegative(Some(NonNegative(raw))) == NonNegative(raw)
  {
  }

  /** The rule is the least non-negative number not below the input: it is
      monotone, and it is the identity exactly on the non-negative numbers. */
  lemma NonNegativeMonotone(a: real, b: real)
    requires a <= b
    ensures NonNegative(Some(a)) <= NonNegative(Some(b))
    ensures NonNegative(Some(a)) == a <==> a >= 0.0
  {
  }
}
