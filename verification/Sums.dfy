/** Sums of integer sequences. */
module Sums {

  ghost function Sum(s: seq<int>): int {
    if s == [] then 0 else Sum(s[..|s| - 1]) + s[|s| - 1]
  }

  lemma {:induction false} SumUpdate(s: seq<int>, i: int, x: int)
    requires 0 <= i < |s|
    ensures Sum(s[i := x]) == Sum(s) - s[i] + x
  {
    var last := |s| - 1;
    if i == last {
      assert s[i := x][..last] == s[..last];
    } else {
      assert s[i := x][..last] == s[..last][i := x];
      SumUpdate(s[..last], i, x);
    }
  }

  lemma {:induction false} SumNonNegative(s: seq<int>)
    requires forall i | 0 <= i < |s| :: 0 <= s[i]
    ensures 0 <= Sum(s)
  {
    if s != [] {
      SumNonNegative(s[..|s| - 1]);
    }
  }

  lemma SumPositive(s: seq<int>, i: int)
    requires forall j | 0 <= j < |s| :: 0 <= s[j]
    requires 0 <= i < |s|
    ensures s[i] <= Sum(s)
  {
    SumUpdate(s, i, 0);
    SumNonNegative(s[i := 0]);
  }

  lemma {:induction false} SumZero(s: seq<int>)
    requires forall j | 0 <= j < |s| :: s[j] == 0
    ensures Sum(s) == 0
  {
    if s != [] {
      SumZero(s[..|s| - 1]);
    }
  }

  lemma {:induction false} SumMonotone(f: seq<int>, g: seq<int>)
    requires |f| == |g| && forall i | 0 <= i < |f| :: g[i] <= f[i]
    ensures Sum(g) <= Sum(f)
    ensures (exists i :: 0 <= i < |f| && g[i] < f[i]) ==> Sum(g) < Sum(f)
  {
    if f != [] {
      SumMonotone(f[..|f| - 1], g[..|g| - 1]);
      if i :| 0 <= i < |f| - 1 && g[i] < f[i] {
        assert f[..|f| - 1][i] == f[i];
      }
    }
  }
}
