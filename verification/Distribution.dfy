/** coordinator/cluster/util.go: spreading users over agents one at a time, re-sorting the agents by
    load before each unit. sort.Slice is not stable, so everything below holds for every order in
    which agents of equal load may come out. */
module Distribution {
  import opened Wrappers
  import opened Sums

  datatype SortableAgent = SortableAgent(index: int, users: int)

  datatype DistributionError = NoAgents

  ghost function SumSquares(s: seq<int>): int {
    if s == [] then 0 else SumSquares(s[..|s| - 1]) + s[|s| - 1] * s[|s| - 1]
  }

  /** One unit goes to an agent of least load: whichever one the sort puts first. */
  ghost predicate AddStep(f: seq<int>, f': seq<int>) {
    exists i :: 0 <= i < |f| && IsLeast(f, i) && f' == f[i := f[i] + 1]
  }

  ghost predicate IsLeast(f: seq<int>, i: int)
    requires 0 <= i < |f|
  {
    forall j | 0 <= j < |f| :: f[i] <= f[j]
  }

  ghost predicate IsMost(f: seq<int>, i: int)
    requires 0 <= i < |f|
  {
    forall j | 0 <= j < |f| :: f[j] <= f[i]
  }

  /** One unit leaves an agent of greatest load, unless no agent has any left. */
  ghost predicate RemoveStep(f: seq<int>, f': seq<int>) {
    exists i :: 0 <= i < |f| && IsMost(f, i) && f' == if f[i] > 0 then f[i := f[i] - 1] else f
  }

  /** f is what n additions can lead to from `loads`, under some way of breaking ties. */
  ghost predicate Adds(loads: seq<int>, n: nat, f: seq<int>) {
    if n == 0 then f == loads else exists g :: Adds(loads, n - 1, g) && AddStep(g, f)
  }

  ghost predicate Removes(loads: seq<int>, n: nat, f: seq<int>) {
    if n == 0 then f == loads else exists g :: Removes(loads, n - 1, g) && RemoveStep(g, f)
  }

  /** f results from giving: nobody has less than before, and whoever has more than before ends at
      most one above everybody else. */
  ghost predicate LevelledUp(loads: seq<int>, f: seq<int>) {
    && |f| == |loads|
    && (forall i | 0 <= i < |f| :: loads[i] <= f[i])
    && (forall i, j | 0 <= i < |f| && 0 <= j < |f| && loads[i] < f[i] :: f[i] <= f[j] + 1)
  }

  /** f results from taking: whoever has less than before ends at most one below everybody else. */
  ghost predicate LevelledDown(loads: seq<int>, f: seq<int>) {
    && |f| == |loads|
    && (forall i | 0 <= i < |f| :: 0 <= f[i] <= loads[i])
    && (forall i, j | 0 <= i < |f| && 0 <= j < |f| && f[i] < loads[i] :: f[j] - 1 <= f[i])
  }

  /** Balance and exactness hold for every way of breaking ties. */
  lemma {:induction false} AddsLevel(loads: seq<int>, n: nat, f: seq<int>)
    requires Adds(loads, n, f)
    ensures LevelledUp(loads, f) && Sum(f) == Sum(loads) + n
  {
    if n > 0 {
      var g :| Adds(loads, n - 1, g) && AddStep(g, f);
      AddsLevel(loads, n - 1, g);
      AddStepLevel(loads, g, f);
    }
  }

  lemma AddStepLevel(loads: seq<int>, g: seq<int>, f: seq<int>)
    requires LevelledUp(loads, g) && AddStep(g, f)
    ensures LevelledUp(loads, f) && Sum(f) == Sum(g) + 1
  {
    hide LevelledUp;
    var i :| 0 <= i < |g| && IsLeast(g, i) && f == g[i := g[i] + 1];
    GiveLevel(loads, g, i);
    SumUpdate(g, i, g[i] + 1);
  }

  lemma GiveLevel(loads: seq<int>, g: seq<int>, i: int)
    requires LevelledUp(loads, g) && 0 <= i < |g| && IsLeast(g, i)
    ensures LevelledUp(loads, g[i := g[i] + 1])
  {
  }

  /** Exactly min(n, total) users are removed and no agent goes below zero. */
  lemma {:induction false} RemovesLevel(loads: seq<int>, n: nat, f: seq<int>)
    requires Removes(loads, n, f)
    requires forall i | 0 <= i < |loads| :: 0 <= loads[i]
    ensures LevelledDown(loads, f)
    ensures Sum(f) == if n <= Sum(loads) then Sum(loads) - n else 0
  {
    if n == 0 {
      SumNonNegative(loads);
    } else {
      var g :| Removes(loads, n - 1, g) && RemoveStep(g, f);
      RemovesLevel(loads, n - 1, g);
      RemoveStepLevel(loads, g, f);
    }
  }

  lemma RemoveStepLevel(loads: seq<int>, g: seq<int>, f: seq<int>)
    requires LevelledDown(loads, g) && RemoveStep(g, f)
    ensures LevelledDown(loads, f)
    ensures Sum(f) == if Sum(g) > 0 then Sum(g) - 1 else 0
  {
    hide LevelledDown;
    NoneBelowZero(loads, g);
    var i :| 0 <= i < |g| && IsMost(g, i) && f == if g[i] > 0 then g[i := g[i] - 1] else g;
    if g[i] > 0 {
      TakeLevel(loads, g, i);
      SumUpdate(g, i, g[i] - 1);
      SumPositive(g, i);
    } else {
      SumZero(g);
    }
  }

  lemma NoneBelowZero(loads: seq<int>, g: seq<int>)
    requires LevelledDown(loads, g)
    ensures forall i | 0 <= i < |g| :: 0 <= g[i]
  {
  }

  lemma TakeLevel(loads: seq<int>, g: seq<int>, i: int)
    requires LevelledDown(loads, g) && 0 <= i < |g| && IsMost(g, i) && g[i] > 0
    ensures LevelledDown(loads, g[i := g[i] - 1])
  {
  }

  lemma MultisetUpdate(s: seq<int>, i: int, x: int)
    requires 0 <= i < |s|
    ensures multiset(s[i := x]) == multiset(s) - multiset{s[i]} + multiset{x}
  {
  }

  lemma SameLeast(f: seq<int>, i: int, g: seq<int>, j: int)
    requires multiset(f) == multiset(g)
    requires 0 <= i < |f| && IsLeast(f, i) && 0 <= j < |g| && IsLeast(g, j)
    ensures f[i] == g[j]
  {
    assert f[i] in multiset(g) && g[j] in multiset(f);
  }

  lemma SameMost(f: seq<int>, i: int, g: seq<int>, j: int)
    requires multiset(f) == multiset(g)
    requires 0 <= i < |f| && IsMost(f, i) && 0 <= j < |g| && IsMost(g, j)
    ensures f[i] == g[j]
  {
    assert f[i] in multiset(g) && g[j] in multiset(f);
  }

  /** Two runs from the same loads end with the same multiset of loads, however each broke its ties. */
  lemma {:induction false} AddsConfluent(loads: seq<int>, n: nat, f: seq<int>, g: seq<int>)
    requires Adds(loads, n, f) && Adds(loads, n, g)
    ensures multiset(f) == multiset(g)
  {
    if n > 0 {
      var f0 :| Adds(loads, n - 1, f0) && AddStep(f0, f);
      var g0 :| Adds(loads, n - 1, g0) && AddStep(g0, g);
      AddsConfluent(loads, n - 1, f0, g0);
      AddStepsConfluent(f0, f, g0, g);
    }
  }

  lemma AddStepsConfluent(f0: seq<int>, f: seq<int>, g0: seq<int>, g: seq<int>)
    requires multiset(f0) == multiset(g0) && AddStep(f0, f) && AddStep(g0, g)
    ensures multiset(f) == multiset(g)
  {
    var i :| 0 <= i < |f0| && IsLeast(f0, i) && f == f0[i := f0[i] + 1];
    var j :| 0 <= j < |g0| && IsLeast(g0, j) && g == g0[j := g0[j] + 1];
    SameLeast(f0, i, g0, j);
    MultisetUpdate(f0, i, f0[i] + 1);
    MultisetUpdate(g0, j, g0[j] + 1);
  }

  lemma {:induction false} RemovesConfluent(loads: seq<int>, n: nat, f: seq<int>, g: seq<int>)
    requires Removes(loads, n, f) && Removes(loads, n, g)
    ensures multiset(f) == multiset(g)
  {
    if n > 0 {
      var f0 :| Removes(loads, n - 1, f0) && RemoveStep(f0, f);
      var g0 :| Removes(loads, n - 1, g0) && RemoveStep(g0, g);
      RemovesConfluent(loads, n - 1, f0, g0);
      RemoveStepsConfluent(f0, f, g0, g);
    }
  }

  lemma RemoveStepsConfluent(f0: seq<int>, f: seq<int>, g0: seq<int>, g: seq<int>)
    requires multiset(f0) == multiset(g0) && RemoveStep(f0, f) && RemoveStep(g0, g)
    ensures multiset(f) == multiset(g)
  {
    var i :| 0 <= i < |f0| && IsMost(f0, i) && f == if f0[i] > 0 then f0[i := f0[i] - 1] else f0;
    var j :| 0 <= j < |g0| && IsMost(g0, j) && g == if g0[j] > 0 then g0[j := g0[j] - 1] else g0;
    SameMost(f0, i, g0, j);
    MultisetUpdate(f0, i, f0[i] - 1);
    MultisetUpdate(g0, j, g0[j] - 1);
  }

  lemma {:induction false} TangentBound(f: seq<int>, g: seq<int>, c: int)
    requires |f| == |g|
    requires forall i | 0 <= i < |f| :: c * (g[i] - f[i]) <= g[i] * g[i] - f[i] * f[i]
    ensures c * (Sum(g) - Sum(f)) <= SumSquares(g) - SumSquares(f)
  {
    if f != [] {
      var last := |f| - 1;
      TangentBound(f[..last], g[..last], c);
      var a, b := Sum(g[..last]) - Sum(f[..last]), g[last] - f[last];
      assert c * (a + b) == c * a + c * b;
    }
  }

  lemma {:induction false} LeastExists(s: seq<int>) returns (i: int)
    requires s != []
    ensures 0 <= i < |s| && IsLeast(s, i)
  {
    if |s| == 1 {
      i := 0;
    } else {
      i := LeastExists(s[..|s| - 1]);
      if s[|s| - 1] < s[i] { i := |s| - 1; }
    }
  }

  lemma {:induction false} MostExists(s: seq<int>) returns (i: int)
    requires s != []
    ensures 0 <= i < |s| && IsMost(s, i)
  {
    if |s| == 1 {
      i := 0;
    } else {
      i := MostExists(s[..|s| - 1]);
      if s[|s| - 1] > s[i] { i := |s| - 1; }
    }
  }

  lemma UpTangent(m: int, l: int, f: int, g: int)
    requires l <= f && l <= g && m <= f && (l < f ==> f <= m + 1)
    ensures (2 * m + 1) * (g - f) <= g * g - f * f
  {
    assert g * g - f * f - (2 * m + 1) * (g - f) == (g - f) * (g + f - 2 * m - 1);
    if g < f { assert g + f - 2 * m - 1 <= 0; ProductSign(f - g, -(g + f - 2 * m - 1)); }
    if g > f { ProductSign(g - f, g + f - 2 * m - 1); }
  }

  lemma DownTangent(m: int, l: int, f: int, g: int)
    requires f <= l && g <= l && f <= m && (f < l ==> m - 1 <= f)
    ensures (2 * m - 1) * (g - f) <= g * g - f * f
  {
    assert g * g - f * f - (2 * m - 1) * (g - f) == (g - f) * (g + f - 2 * m + 1);
    if g < f { ProductSign(f - g, -(g + f - 2 * m + 1)); }
    if g > f { ProductSign(g - f, g + f - 2 * m + 1); }
  }

  lemma ProductSign(a: int, b: int)
    requires 0 <= a && 0 <= b
    ensures 0 <= a * b && (-a) * (-b) == a * b
  {
  }

  ghost predicate AtLeast(g: seq<int>, loads: seq<int>) {
    |g| == |loads| && forall i | 0 <= i < |g| :: loads[i] <= g[i]
  }

  ghost predicate Within(g: seq<int>, loads: seq<int>) {
    |g| == |loads| && forall i | 0 <= i < |g| :: 0 <= g[i] <= loads[i]
  }

  /** No load of f exceeds every load of g. */
  ghost predicate PeaksWithin(f: seq<int>, g: seq<int>) {
    forall i | 0 <= i < |f| :: exists j :: 0 <= j < |g| && f[i] <= g[j]
  }

  lemma LevelledUpSquares(loads: seq<int>, f: seq<int>, g: seq<int>)
    requires LevelledUp(loads, f) && AtLeast(g, loads) && Sum(g) == Sum(f)
    ensures SumSquares(f) <= SumSquares(g)
  {
    if f != [] {
      var least := LeastExists(f);
      var m := f[least];
      forall i | 0 <= i < |f| ensures (2 * m + 1) * (g[i] - f[i]) <= g[i] * g[i] - f[i] * f[i] {
        UpTangent(m, loads[i], f[i], g[i]);
      }
      TangentBound(f, g, 2 * m + 1);
    }
  }

  lemma LevelledUpPeak(loads: seq<int>, f: seq<int>, g: seq<int>)
    requires LevelledUp(loads, f) && AtLeast(g, loads) && Sum(g) == Sum(f)
    ensures PeaksWithin(f, g)
  {
    forall i | 0 <= i < |f| ensures exists j :: 0 <= j < |g| && f[i] <= g[j] {
      if forall j | 0 <= j < |g| :: g[j] < f[i] {
        SumMonotone(f, g);
      }
    }
  }

  lemma LevelledDownSquares(loads: seq<int>, f: seq<int>, g: seq<int>)
    requires LevelledDown(loads, f) && Within(g, loads) && Sum(g) == Sum(f)
    ensures SumSquares(f) <= SumSquares(g)
  {
    if f != [] {
      var most := MostExists(f);
      var m := f[most];
      forall i | 0 <= i < |f| ensures (2 * m - 1) * (g[i] - f[i]) <= g[i] * g[i] - f[i] * f[i] {
        DownTangent(m, loads[i], f[i], g[i]);
      }
      TangentBound(f, g, 2 * m - 1);
    }
  }

  lemma LevelledDownPeak(loads: seq<int>, f: seq<int>, g: seq<int>)
    requires LevelledDown(loads, f) && Within(g, loads) && Sum(g) == Sum(f)
    ensures PeaksWithin(f, g)
  {
    forall i | 0 <= i < |f| ensures exists j :: 0 <= j < |g| && f[i] <= g[j] {
      if forall j | 0 <= j < |g| :: g[j] < f[i] {
        forall j | 0 <= j < |g| ensures g[j] <= f[j] {
          if f[j] < loads[j] { assert f[i] - 1 <= f[j]; }
        }
        SumMonotone(f, g);
      }
    }
  }

  /** Whatever the tie-breaking, no other way to place n users has a smaller sum of squared loads or
      a smaller greatest load. */
  lemma AdditionIsOptimal(loads: seq<int>, n: nat, f: seq<int>, g: seq<int>)
    requires Adds(loads, n, f)
    requires AtLeast(g, loads) && Sum(g) == Sum(loads) + n
    ensures SumSquares(f) <= SumSquares(g) && PeaksWithin(f, g)
  {
    AddsLevel(loads, n, f);
    LevelledUpSquares(loads, f, g);
    LevelledUpPeak(loads, f, g);
  }

  /** No other way to remove the same number of users leaves a smaller sum of squared loads or a
      smaller greatest load. */
  lemma DeletionIsOptimal(loads: seq<int>, n: nat, f: seq<int>, g: seq<int>)
    requires Removes(loads, n, f)
    requires Within(g, loads) && Sum(g) == Sum(f)
    ensures SumSquares(f) <= SumSquares(g) && PeaksWithin(f, g)
  {
    RemovesLevel(loads, n, f);
    LevelledDownSquares(loads, f, g);
    LevelledDownPeak(loads, f, g);
  }

  // ----- the two loops -----

  predicate InOrder(x: SortableAgent, y: SortableAgent, descending: bool) {
    if descending then x.users >= y.users else x.users <= y.users
  }

  ghost predicate Ordered(s: seq<SortableAgent>, descending: bool) {
    forall i, j | 0 <= i < j < |s| :: InOrder(s[i], s[j], descending)
  }

  function InsertOrdered(x: SortableAgent, s: seq<SortableAgent>, descending: bool): seq<SortableAgent> {
    if s == [] then [x]
    else if InOrder(x, s[0], descending) then [x] + s
    else [s[0]] + InsertOrdered(x, s[1..], descending)
  }

  /** Everything in s may come after x. */
  ghost predicate Leads(x: SortableAgent, s: seq<SortableAgent>, descending: bool) {
    forall y | y in s :: InOrder(x, y, descending)
  }

  lemma OrderedCons(x: SortableAgent, s: seq<SortableAgent>, descending: bool)
    ensures Ordered([x] + s, descending) <==> Leads(x, s, descending) && Ordered(s, descending)
  {
    var t := [x] + s;
    if Ordered(t, descending) {
      forall y | y in s ensures InOrder(x, y, descending) {
        var i :| 0 <= i < |s| && s[i] == y;
        assert t[0] == x && t[i + 1] == y;
      }
      forall i, j | 0 <= i < j < |s| ensures InOrder(s[i], s[j], descending) {
        assert t[i + 1] == s[i] && t[j + 1] == s[j];
      }
    }
    if Leads(x, s, descending) && Ordered(s, descending) {
      forall i, j | 0 <= i < j < |t| ensures InOrder(t[i], t[j], descending) {
        assert t[j] == s[j - 1] && s[j - 1] in s;
      }
    }
  }

  lemma LeadsOn(x: SortableAgent, y: SortableAgent, s: seq<SortableAgent>, descending: bool)
    requires InOrder(x, y, descending) && Leads(y, s, descending)
    ensures Leads(x, [y] + s, descending)
  {
  }

  lemma LeadsInserted(z: SortableAgent, x: SortableAgent, s: seq<SortableAgent>, r: seq<SortableAgent>,
                      descending: bool)
    requires InOrder(z, x, descending) && Leads(z, s, descending) && multiset(r) == multiset{x} + multiset(s)
    ensures Leads(z, r, descending)
  {
    forall y | y in r ensures InOrder(z, y, descending) {
      assert y in multiset(r);
    }
  }

  lemma MultisetCons(x: SortableAgent, s: seq<SortableAgent>)
    ensures multiset([x] + s) == multiset{x} + multiset(s)
  {
  }

  lemma {:induction false} InsertOrderedIs(x: SortableAgent, s: seq<SortableAgent>, descending: bool)
    requires Ordered(s, descending)
    ensures Ordered(InsertOrdered(x, s, descending), descending)
    ensures multiset(InsertOrdered(x, s, descending)) == multiset{x} + multiset(s)
  {
    hide Ordered, Leads;
    MultisetCons(x, s);
    if s == [] {
      assert [x] + s == [x];
      NobodyLed(x, descending);
      OrderedCons(x, s, descending);
    } else {
      var first, tail := s[0], s[1..];
      assert s == [first] + tail;
      OrderedCons(first, tail, descending);
      if InOrder(x, first, descending) {
        LeadsOn(x, first, tail, descending);
        OrderedCons(x, s, descending);
      } else {
        var rest := InsertOrdered(x, tail, descending);
        InsertOrderedIs(x, tail, descending);
        LeadsInserted(first, x, tail, rest, descending);
        OrderedCons(first, rest, descending);
        MultisetCons(first, rest);
        MultisetCons(first, tail);
      }
    }
  }

  lemma NobodyLed(x: SortableAgent, descending: bool)
    ensures Leads(x, [], descending) && Ordered([], descending)
  {
  }

  function SortedSlice(s: seq<SortableAgent>, descending: bool): seq<SortableAgent> {
    if s == [] then [] else InsertOrdered(s[0], SortedSlice(s[1..], descending), descending)
  }

  lemma {:induction false} SortedSliceIs(s: seq<SortableAgent>, descending: bool)
    ensures Ordered(SortedSlice(s, descending), descending)
    ensures multiset(SortedSlice(s, descending)) == multiset(s)
    ensures |SortedSlice(s, descending)| == |s|
  {
    hide InsertOrdered, Ordered;
    if s == [] {
      NobodyLed(SortableAgent(0, 0), descending);
    } else {
      SortedSliceIs(s[1..], descending);
      InsertOrderedIs(s[0], SortedSlice(s[1..], descending), descending);
      assert s == [s[0]] + s[1..];
      MultisetCons(s[0], s[1..]);
      assert |SortedSlice(s, descending)| == |multiset(SortedSlice(s, descending))| == |multiset(s)|;
    }
  }

  /** sort.Slice by number of users. Only what it promises is used below: the same agents, in order;
      agents of equal load may come out in any order. */
  method SortByUsers(a: array<SortableAgent>, descending: bool)
    modifies a
    ensures multiset(a[..]) == multiset(old(a[..]))
    ensures Ordered(a[..], descending)
  {
    hide SortedSlice, Ordered;
    var t := SortedSlice(a[..], descending);
    SortedSliceIs(a[..], descending);
    forall i | 0 <= i < a.Length {
      a[i] := t[i];
    }
    assert a[..] == t;
  }

  function Entries(loads: seq<int>): seq<SortableAgent> {
    seq(|loads|, i requires 0 <= i < |loads| => SortableAgent(i, loads[i]))
  }

  /** The agents, in any order, carry exactly these loads. */
  ghost predicate Mirrors(s: seq<SortableAgent>, loads: seq<int>) {
    multiset(s) == multiset(Entries(loads))
  }

  method PopulateSortableAgents(loads: seq<int>) returns (r: Result<array<SortableAgent>, DistributionError>)
    ensures r.Err? <==> loads == []
    ensures r.Ok? ==> fresh(r.value) && Mirrors(r.value[..], loads) && r.value.Length == |loads|
  {
    if |loads| == 0 {
      return Err(NoAgents);
    }
    var a := new SortableAgent[|loads|](i requires 0 <= i < |loads| => SortableAgent(i, loads[i]));
    assert a[..] == Entries(loads);
    return Ok(a);
  }

  /** The loads after every agent i gains (or loses) dist[i] users. */
  function Plus(loads: seq<int>, dist: map<int, int>, sign: int): seq<int> {
    seq(|loads|, i requires 0 <= i < |loads| => loads[i] + sign * if i in dist then dist[i] else 0)
  }

  lemma EntriesUpdate(s: seq<SortableAgent>, loads: seq<int>, x: int)
    requires s != [] && Mirrors(s, loads)
    ensures 0 <= s[0].index < |loads| && s[0].users == loads[s[0].index]
    ensures Mirrors(s[0 := s[0].(users := x)], loads[s[0].index := x])
  {
    assert s[0] in multiset(Entries(loads));
    var i :| 0 <= i < |loads| && Entries(loads)[i] == s[0];
    assert Entries(loads[i := x]) == Entries(loads)[i := s[0].(users := x)];
  }

  lemma FirstIsExtreme(s: seq<SortableAgent>, loads: seq<int>, descending: bool)
    requires s != [] && Mirrors(s, loads) && Ordered(s, descending)
    requires 0 <= s[0].index < |loads| && s[0].users == loads[s[0].index]
    ensures if descending then IsMost(loads, s[0].index) else IsLeast(loads, s[0].index)
  {
    forall j | 0 <= j < |loads| ensures InOrder(s[0], SortableAgent(j, loads[j]), descending) {
      assert Entries(loads)[j] in multiset(s);
      var k :| 0 <= k < |s| && s[k] == Entries(loads)[j];
    }
  }

  lemma AdditionStep(s: seq<SortableAgent>, loads: seq<int>, k: nat, cur: seq<int>)
    requires s != [] && Mirrors(s, cur) && Ordered(s, false)
    requires Adds(loads, k, cur)
    ensures 0 <= s[0].index < |cur| && s[0].users == cur[s[0].index]
    ensures Adds(loads, k + 1, cur[s[0].index := s[0].users + 1])
    ensures Mirrors(s[0 := s[0].(users := s[0].users + 1)], cur[s[0].index := s[0].users + 1])
  {
    EntriesUpdate(s, cur, s[0].users + 1);
    FirstIsExtreme(s, cur, false);
    assert AddStep(cur, cur[s[0].index := s[0].users + 1]);
  }

  lemma DeletionStep(s: seq<SortableAgent>, loads: seq<int>, k: nat, cur: seq<int>)
    requires s != [] && Mirrors(s, cur) && Ordered(s, true)
    requires Removes(loads, k, cur)
    ensures 0 <= s[0].index < |cur| && s[0].users == cur[s[0].index]
    ensures s[0].users > 0 ==>
              && Removes(loads, k + 1, cur[s[0].index := s[0].users - 1])
              && Mirrors(s[0 := s[0].(users := s[0].users - 1)], cur[s[0].index := s[0].users - 1])
    ensures s[0].users <= 0 ==> Removes(loads, k + 1, cur)
  {
    EntriesUpdate(s, cur, s[0].users - 1);
    FirstIsExtreme(s, cur, true);
    if s[0].users > 0 {
      assert RemoveStep(cur, cur[s[0].index := s[0].users - 1]);
    } else {
      assert RemoveStep(cur, cur);
    }
  }

  /** One iteration: sort, then give one user to the agent in front. */
  method GiveOne(agents: array<SortableAgent>, ghost loads: seq<int>, ghost k: nat, ghost cur: seq<int>)
    returns (i: int, ghost next: seq<int>)
    requires agents.Length > 0 && Mirrors(agents[..], cur) && Adds(loads, k, cur)
    modifies agents
    ensures 0 <= i < |cur| && next == cur[i := cur[i] + 1]
    ensures Mirrors(agents[..], next) && Adds(loads, k + 1, next)
  {
    hide Entries;
    hide Ordered;
    SortByUsers(agents, false);
    ghost var s := agents[..];
    AdditionStep(s, loads, k, cur);
    agents[0] := agents[0].(users := agents[0].users + 1);
    i := agents[0].index;
    next := cur[i := s[0].users + 1];
    assert agents[..] == s[0 := s[0].(users := s[0].users + 1)];
  }

  /** One iteration: sort, then take one user from the agent in front, if it has any. */
  method TakeOne(agents: array<SortableAgent>, ghost loads: seq<int>, ghost k: nat, ghost cur: seq<int>)
    returns (i: int, taken: bool, ghost next: seq<int>)
    requires agents.Length > 0 && Mirrors(agents[..], cur) && Removes(loads, k, cur)
    modifies agents
    ensures 0 <= i < |cur| && next == if taken then cur[i := cur[i] - 1] else cur
    ensures Mirrors(agents[..], next) && Removes(loads, k + 1, next)
  {
    hide Entries;
    hide Ordered;
    SortByUsers(agents, true);
    ghost var s := agents[..];
    DeletionStep(s, loads, k, cur);
    i, taken, next := agents[0].index, agents[0].users > 0, cur;
    if agents[0].users > 0 {
      agents[0] := agents[0].(users := agents[0].users - 1);
      next := cur[i := s[0].users - 1];
      assert agents[..] == s[0 := s[0].(users := s[0].users - 1)];
    }
  }

  function Bump(dist: map<int, int>, i: int): map<int, int> {
    dist[i := (if i in dist then dist[i] else 0) + 1]
  }

  ghost predicate Amounts(loads: seq<int>, dist: map<int, int>) {
    forall i | i in dist :: 0 <= i < |loads| && 0 < dist[i]
  }

  lemma PlusBump(loads: seq<int>, dist: map<int, int>, sign: int, i: int, cur: seq<int>, next: seq<int>)
    requires cur == Plus(loads, dist, sign)
    requires 0 <= i < |cur| == |next| && next[i] == cur[i] + sign
    requires forall j | 0 <= j < |cur| && j != i :: next[j] == cur[j]
    ensures next == Plus(loads, Bump(dist, i), sign)
    ensures Amounts(loads, dist) ==> Amounts(loads, Bump(dist, i))
  {
  }

  lemma NothingYet(loads: seq<int>, sign: int)
    ensures Adds(loads, 0, loads) && Removes(loads, 0, loads)
    ensures Amounts(loads, map[]) && loads == Plus(loads, map[], sign)
  {
  }

  function Steps(n: int): nat {
    if n < 0 then 0 else n
  }

  method AdditionDistribution(loads: seq<int>, n: int) returns (r: Result<map<int, int>, DistributionError>)
    ensures r.Err? <==> loads == []
    ensures r.Ok? ==> Adds(loads, Steps(n), Plus(loads, r.value, 1)) && Amounts(loads, r.value)
    ensures r.Ok? && 0 <= n ==> Sum(Plus(loads, r.value, 1)) == Sum(loads) + n
    ensures r.Ok? && n <= 0 ==> r.value == map[]
  {
    hide LevelledUp, Sum;
    hide Adds;
    hide Mirrors;
    hide Plus;
    hide Bump;
    hide Amounts;
    NothingYet(loads, 1);
    var populated := PopulateSortableAgents(loads);
    if populated.Err? {
      return Err(populated.error);
    }
    var agents := populated.value;
    var distMap: map<int, int> := map[];
    ghost var cur := loads;
    var k := 0;
    while k < n
      invariant 0 <= k && (k <= n || k == 0) && (k == 0 ==> distMap == map[])
      invariant |cur| == |loads| && cur == Plus(loads, distMap, 1) && Amounts(loads, distMap)
      invariant Mirrors(agents[..], cur) && Adds(loads, k, cur)
    {
      ghost var before := cur;
      var i;
      i, cur := GiveOne(agents, loads, k, cur);
      PlusBump(loads, distMap, 1, i, before, cur);
      distMap := Bump(distMap, i);
      k := k + 1;
    }
    assert k == Steps(n);
    AddsLevel(loads, k, cur);
    return Ok(distMap);
  }

  method DeletionDistribution(loads: seq<int>, n: int) returns (r: Result<map<int, int>, DistributionError>)
    ensures r.Err? <==> loads == []
    ensures r.Ok? ==> Removes(loads, Steps(n), Plus(loads, r.value, -1)) && Amounts(loads, r.value)
    ensures r.Ok? && 0 <= n && (forall i | 0 <= i < |loads| :: 0 <= loads[i]) ==>
              Sum(Plus(loads, r.value, -1)) == if n <= Sum(loads) then Sum(loads) - n else 0
    ensures r.Ok? && n <= 0 ==> r.value == map[]
  {
    hide LevelledDown, Sum;
    hide Removes;
    hide Mirrors;
    hide Plus;
    hide Bump;
    hide Amounts;
    NothingYet(loads, -1);
    var populated := PopulateSortableAgents(loads);
    if populated.Err? {
      return Err(populated.error);
    }
    var agents := populated.value;
    var distMap: map<int, int> := map[];
    ghost var cur := loads;
    var k := 0;
    while k < n
      invariant 0 <= k && (k <= n || k == 0) && (k == 0 ==> distMap == map[])
      invariant |cur| == |loads| && cur == Plus(loads, distMap, -1) && Amounts(loads, distMap)
      invariant Mirrors(agents[..], cur) && Removes(loads, k, cur)
    {
      ghost var before := cur;
      var i, taken;
      i, taken, cur := TakeOne(agents, loads, k, cur);
      if taken {
        PlusBump(loads, distMap, -1, i, before, cur);
        distMap := Bump(distMap, i);
      }
      k := k + 1;
    }
    assert k == Steps(n);
    if forall i | 0 <= i < |loads| :: 0 <= loads[i] {
      RemovesLevel(loads, k, cur);
    }
    return Ok(distMap);
  }
}
