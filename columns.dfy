/** The column types of the PostgreSQL tables the bot writes. */
module Columns {
  import opened Wrappers

  /** PostgreSQL stores a value into a `VARCHAR(n)` column when it is NULL, has
      at most `n` characters, or has only spaces beyond the `n`th. */
  predicate Fits(v: Option<string>, n: nat) {
    v.None? || |v.value| <= n || forall i :: n <= i < |v.value| ==> v.value[i] == ' '
  }

  /** What the column then holds: the value cut to `n` characters. */
  function Cut(v: Option<string>, n: nat): (c: Option<string>)
    ensures c.Some? <==> v.Some?
    ensures c.Some? ==> |c.value| <= n && c.value <= v.value
    ensures c.Some? && |v.value| <= n ==> c == v
    ensures Fits(v, n) && v.Some? ==> forall i :: |c.value| <= i < |v.value| ==> v.value[i] == ' '
  {
    if v.Some? && |v.value| > n then Some(v.value[..n]) else v
  }

  /** `DECIMAL(10,2)`, for the whole amounts of the model: at most eight
      digits before the point. */
  predicate AmountFits(a: int) {
    -100000000 < a < 100000000
  }

  /** `INTEGER`: a signed 32-bit value. */
  predicate IntFits(a: int) {
    -0x8000_0000 <= a < 0x8000_0000
  }
}
