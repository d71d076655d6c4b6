/** How an operation that checks itself with `nolibc_assert` ends: done, or with a failed assertion. */
module Verdicts {
  datatype Verdict = Done | Failed
}
