/** Names, instants and counters shared by every component. */
module Common {

  /** Identifiers, digests and keys are opaque: the modelled code compares them
      and nothing else. NO_NAME stands for the empty text. */
  type Name = nat

  const NO_NAME: Name := 0

  datatype Option<+T> = None | Some(value: T)

  /** The largest integer every peer can represent. */
  const MAXIMUM_INTEGER := 9_007_199_254_740_991

  /** The last nanosecond of the year 9999. */
  const LAST_INSTANT := 253_402_300_799_999_999_999

  /** Zero is the zero time, which no event may carry. */
  predicate ValidTime(at: int) {
    0 < at <= LAST_INSTANT
  }

  /** A counter map reads zero where nothing was ever stored. */
  function At(counters: map<Name, int>, key: Name): int {
    if key in counters then counters[key] else 0
  }

  function Bump(counters: map<Name, int>, key: Name, delta: int): map<Name, int> {
    counters[key := At(counters, key) + delta]
  }
}
