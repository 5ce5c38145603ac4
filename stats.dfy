/**
 * The exact per-row statistics the scripts print: a leading slice
 * (`row[:n]`) and the largest absolute value (`row.abs().max()`).
 */
module Stats {
  function Abs(x: real): (r: real)
    ensures r >= 0.0 && (r == x || r == -x)
  {
    if x < 0.0 then -x else x
  }

  function Min(a: int, b: int): int {
    if a <= b then a else b
  }

  /** Python's `row[:n]` for n >= 0: the first min(n, |row|) entries. */
  function Head(row: seq<real>, n: nat): (r: seq<real>)
    ensures |r| == Min(n, |row|)
    ensures forall k :: 0 <= k < |r| ==> r[k] == row[k]
  {
    if n <= |row| then row[..n] else row
  }

  /**
   * row.abs().max(): an absolute value that occurs in the row and that no
   * entry's absolute value exceeds. The row must be non-empty (torch raises
   * on an empty one).
   */
  function MaxAbs(row: seq<real>): (m: real)
    requires |row| > 0
    ensures exists k :: 0 <= k < |row| && m == Abs(row[k])
    ensures forall k :: 0 <= k < |row| ==> Abs(row[k]) <= m
  {
    if |row| == 1 then Abs(row[0])
    else
      var rest := MaxAbs(row[1..]);
      assert forall k :: 1 <= k < |row| ==> row[k] == row[1..][k - 1];
      if Abs(row[0]) >= rest then Abs(row[0]) else rest
  }

  /**
   * A [token][feature] matrix of batch 0 with `numTokens` rows, none of
   * them empty (the framework's tensors have a positive feature size).
   */
  predicate TokenRows(x: seq<seq<real>>, numTokens: nat) {
    |x| == numTokens && forall t :: 0 <= t < |x| ==> |x[t]| > 0
  }

  /** A row printed as "first N" values and maxAbs. */
  datatype RowStats = RowStats(first: seq<real>, maxAbs: real)

  /** The statistics of one row with an `n`-value sample. */
  function StatsOf(row: seq<real>, n: nat): RowStats
    requires |row| > 0
  {
    RowStats(Head(row, n), MaxAbs(row))
  }
}
