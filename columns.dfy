/** The checks that model validation applies to a text column. */
module Columns {

  /** A `CharField`/`EmailField`/`TextField` without `blank=True`: it may not be
      empty, and it holds at most `max` characters. */
  predicate Required(s: string, max: nat)
  {
    0 < |s| <= max
  }
}
