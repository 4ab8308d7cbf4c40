/** The entry events of a scan (`entries`, research/momentum-scan/mscan.py): one row per stock, one column
    per session, looped over by column with two vectors of memory. */
module EntryScan {

  /** What `since_out` starts at, as if every stock had been out that long. */
  const LONG_OUT := 10000

  predicate In(state: seq<bool>, k: int) {
    0 <= k < |state| && state[k]
  }

  /** `since_out` before session `j`: sessions since the last one in the scan. */
  function SinceOut(state: seq<bool>, j: nat): int
    requires j <= |state|
  {
    if j == 0 then LONG_OUT else if state[j - 1] then 0 else SinceOut(state, j - 1) + 1
  }

  /** What the loop writes at session `j`. */
  predicate Marked(state: seq<bool>, lookback: int, j: nat)
    requires j < |state|
  {
    state[j] && !In(state, j - 1) && SinceOut(state, j) >= lookback
  }

  predicate Rectangular(state: seq<seq<bool>>, columns: nat) {
    forall i :: 0 <= i < |state| ==> |state[i]| == columns
  }

  /** One stock's memory before session `j`. */
  predicate Remembers(row: seq<bool>, j: nat, wasIn: bool, sinceOut: int)
    requires j <= |row|
  {
    wasIn == In(row, j - 1) && sinceOut == SinceOut(row, j)
  }

  /** The columns of a row before `j` are written. */
  ghost predicate Written(row: seq<bool>, lookback: int, j: nat, out: array2<bool>, i: nat)
    requires j <= |row| <= out.Length1 && i < out.Length0
    reads out
  {
    forall k: nat :: k < j ==> out[i, k] == Marked(row, lookback, k)
  }

  /** The body of the column loop: every stock at session `j`. */
  method Column(state: seq<seq<bool>>, lookback: int, j: nat, out: array2<bool>, wasIn: array<bool>,
                sinceOut: array<int>)
    requires out.Length0 == |state| == wasIn.Length == sinceOut.Length && j < out.Length1
        && Rectangular(state, out.Length1)
    requires forall i: nat :: i < |state| ==>
          Remembers(state[i], j, wasIn[i], sinceOut[i]) && Written(state[i], lookback, j, out, i)
    modifies out, wasIn, sinceOut
    ensures forall i: nat :: i < |state| ==>
          Remembers(state[i], j + 1, wasIn[i], sinceOut[i]) && Written(state[i], lookback, j + 1, out, i)
  {
    for i := 0 to |state|
      invariant forall r: nat :: r < i ==>
            Remembers(state[r], j + 1, wasIn[r], sinceOut[r]) && Written(state[r], lookback, j + 1, out, r)
      invariant forall r: nat :: i <= r < |state| ==>
            Remembers(state[r], j, wasIn[r], sinceOut[r]) && Written(state[r], lookback, j, out, r)
    {
      var s := state[i][j];
      out[i, j] := s && !wasIn[i] && sinceOut[i] >= lookback;
      sinceOut[i] := if s then 0 else sinceOut[i] + 1;
      wasIn[i] := s;
    }
  }

  /** `entries`. */
  method Entries(state: seq<seq<bool>>, columns: nat, lookback: int) returns (out: array2<bool>)
    requires Rectangular(state, columns)
    ensures fresh(out) && out.Length0 == |state| && out.Length1 == columns
    ensures forall i: nat, j: nat :: i < |state| && j < columns ==> out[i, j] == Marked(state[i], lookback, j)
  {
    out := new bool[|state|, columns];
    var wasIn, sinceOut := new bool[|state|](_ => false), new int[|state|](_ => LONG_OUT);
    for j := 0 to columns
      invariant forall i: nat :: i < |state| ==>
            Remembers(state[i], j, wasIn[i], sinceOut[i]) && Written(state[i], lookback, j, out, i)
    {
      Column(state, lookback, j, out, wasIn, sinceOut);
    }
    forall i: nat, j: nat | i < |state| && j < columns ensures out[i, j] == Marked(state[i], lookback, j) {
      assert Written(state[i], lookback, columns, out, i);
    }
  }

  // ----- what a mark means -----

  /** None of the `n` sessions before `j`, of those there are, is in the scan. */
  ghost predicate OutFor(state: seq<bool>, j: int, n: int) {
    forall k :: j - n <= k < j ==> !In(state, k)
  }

  lemma {:induction false} SinceOutIs(state: seq<bool>, j: nat, n: nat)
    requires j <= |state|
    ensures SinceOut(state, j) >= n <==> OutFor(state, j, n) && (n <= LONG_OUT + j || !OutFor(state, j, j))
    ensures 0 <= SinceOut(state, j) <= LONG_OUT + j
  {
    if j > 0 {
      if state[j - 1] {
        assert n > 0 ==> In(state, j - 1);
        assert In(state, j - 1);
      } else if n > 0 {
        SinceOutIs(state, j - 1, n - 1);
        assert !In(state, j - 1);
        assert OutFor(state, j, n) <==> OutFor(state, j - 1, n - 1);
        assert OutFor(state, j, j) <==> OutFor(state, j - 1, j - 1);
      } else {
        SinceOutIs(state, j - 1, 0);
      }
    }
  }

  /** A session is an entry when it is in the scan and none of the `max(lookback, 1)` before it is: for every
      lookback exactly, save that a stock never yet in the scan must also be `lookback - 10000` sessions
      into its row. */
  lemma MarkedIs(state: seq<bool>, lookback: int, j: nat)
    requires j < |state|
    ensures var n := if lookback > 1 then lookback else 1;
            Marked(state, lookback, j)
            <==> state[j] && OutFor(state, j, n) && (lookback <= LONG_OUT + j || !OutFor(state, j, j))
  {
    var n := if lookback > 1 then lookback else 1;
    SinceOutIs(state, j, n);
    SinceOutIs(state, j, 1);
    assert OutFor(state, j, 1) <==> !In(state, j - 1) by {
      if !In(state, j - 1) {
        forall k | j - 1 <= k < j ensures !In(state, k) {
          assert k == j - 1;
        }
      }
    }
    assert OutFor(state, j, n) ==> OutFor(state, j, 1);
  }

  /** So the rule is the documented one for every session when the lookback is at most 10,000, and only
      then if the row is long enough to tell: beyond it the first session of a row is missed. */
  lemma DocumentedRule(state: seq<bool>, lookback: int, j: nat)
    requires j < |state| && lookback <= LONG_OUT
    ensures var n := if lookback > 1 then lookback else 1;
            Marked(state, lookback, j) <==> state[j] && OutFor(state, j, n)
  {
    MarkedIs(state, lookback, j);
  }

  lemma MissedFirst(state: seq<bool>, lookback: int)
    requires |state| > 0 && state[0] && lookback > LONG_OUT
    ensures OutFor(state, 0, lookback) && !Marked(state, lookback, 0)
  {
    MarkedIs(state, lookback, 0);
  }

  /** Two entries of a row are always more than `max(lookback, 1)` sessions apart. */
  lemma EntriesApart(state: seq<bool>, lookback: int, i: nat, j: nat)
    requires i < j < |state| && Marked(state, lookback, i) && Marked(state, lookback, j)
    ensures j - i > lookback && j - i > 1
  {
    MarkedIs(state, lookback, j);
    var n := if lookback > 1 then lookback else 1;
    if i >= j - n {
      assert In(state, i);
    }
  }
}
