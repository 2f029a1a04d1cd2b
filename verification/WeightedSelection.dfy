/** Weighted random choice: SelectWeighted over a slice of weights (loadtest/control/utils.go) and
    pickAction over a map, whose iteration order is arbitrary and may differ between its two loops
    (loadtest/control/gencontroller/utils.go). The random draw is an argument. */
module WeightedSelection {
  import opened Wrappers
  import opened Sums

  /** `Panics` is not an error return: the program panics when it asks for a draw below a negative number. */
  datatype SelectError = Empty | ZeroSum | Panics

  /** i is where the running total of the weights first exceeds the draw. */
  ghost predicate Selects(weights: seq<int>, draw: int, i: int) {
    && 0 <= i < |weights|
    && draw < Sum(weights[..i + 1])
    && forall j | 0 <= j <= i :: Sum(weights[..j]) <= draw
  }

  lemma PrefixStep(weights: seq<int>, i: int)
    requires 0 <= i < |weights|
    ensures Sum(weights[..i + 1]) == Sum(weights[..i]) + weights[i]
  {
    assert weights[..i + 1][..i] == weights[..i];
  }

  lemma PrefixEnds(weights: seq<int>)
    ensures Sum(weights[..0]) == 0 && Sum(weights[..|weights|]) == Sum(weights)
  {
    assert weights[..|weights|] == weights;
  }

  /** The draw is what rand.Intn(sum) may return. Whatever the signs of the weights, as long as their sum is
      positive the loop always finds an index, so the error after it is unreachable. */
  method SelectWeighted(weights: seq<int>, draw: int) returns (r: Result<int, SelectError>)
    requires 0 < Sum(weights) ==> 0 <= draw < Sum(weights)
    ensures weights == [] ==> r == Err(Empty)
    ensures weights != [] && Sum(weights) == 0 ==> r == Err(ZeroSum)
    ensures Sum(weights) < 0 ==> r == Err(Panics)
    ensures 0 < Sum(weights) ==> r.Ok? && Selects(weights, draw, r.value)
  {
    var sum := 0;
    if |weights| == 0 {
      return Err(Empty);
    }
    for i := 0 to |weights|
      invariant sum == Sum(weights[..i])
    {
      PrefixStep(weights, i);
      sum := sum + weights[i];
    }
    assert weights[..|weights|] == weights;
    if sum == 0 {
      return Err(ZeroSum);
    }
    if sum < 0 {
      return Err(Panics);
    }
    var distance := draw;
    for i := 0 to |weights|
      invariant distance == draw - Sum(weights[..i])
      invariant forall j | 0 <= j <= i :: Sum(weights[..j]) <= draw
    {
      PrefixStep(weights, i);
      distance := distance - weights[i];
      if distance < 0 {
        return Ok(i);
      }
    }
    assert false;
  }

  ghost predicate NonNegative(weights: seq<int>) {
    forall i | 0 <= i < |weights| :: 0 <= weights[i]
  }

  lemma {:induction false} PrefixMonotone(weights: seq<int>, i: int, j: int)
    requires NonNegative(weights) && 0 <= i <= j <= |weights|
    ensures Sum(weights[..i]) <= Sum(weights[..j])
    decreases j - i
  {
    if i < j {
      PrefixStep(weights, j - 1);
      PrefixMonotone(weights, i, j - 1);
    }
  }

  ghost function Interval(lo: int, hi: int): (r: set<int>)
    ensures forall d :: d in r <==> lo <= d < hi
    ensures |r| == if lo <= hi then hi - lo else 0
    decreases hi - lo
  {
    if hi <= lo then {} else Interval(lo, hi - 1) + {hi - 1}
  }

  ghost function Draws(weights: seq<int>, i: int): set<int> {
    set d | 0 <= d < Sum(weights) && Selects(weights, d, i)
  }

  /** Exact weighting: of the Sum(weights) equally likely draws, exactly weights[i] select index i. */
  lemma ExactWeighting(weights: seq<int>, i: int)
    requires NonNegative(weights) && 0 <= i < |weights|
    ensures |Draws(weights, i)| == weights[i]
  {
    var lo, hi := Sum(weights[..i]), Sum(weights[..i + 1]);
    PrefixStep(weights, i);
    PrefixMonotone(weights, 0, i);
    PrefixMonotone(weights, i + 1, |weights|);
    assert weights[..|weights|] == weights;
    forall d ensures d in Draws(weights, i) <==> lo <= d < hi {
      if lo <= d < hi {
        forall j | 0 <= j <= i ensures Sum(weights[..j]) <= d { PrefixMonotone(weights, j, i); }
      }
    }
    assert Draws(weights, i) == Interval(lo, hi);
  }

  /** Every draw selects exactly one index. */
  lemma SelectsUnique(weights: seq<int>, draw: int, i: int, j: int)
    requires Selects(weights, draw, i) && Selects(weights, draw, j)
    ensures i == j
  {
    assert draw < Sum(weights[..i + 1]) && draw < Sum(weights[..j + 1]);
  }

  // ----- the same over a map -----

  /** An order in which `range` may visit the keys of m. */
  ghost predicate Enumerates<V>(order: seq<string>, m: map<string, V>) {
    && (forall i, j | 0 <= i < j < |order| :: order[i] != order[j])
    && (forall i | 0 <= i < |order| :: order[i] in m)
    && (forall k | k in m :: k in order)
  }

  function Weights(actions: map<string, int>, order: seq<string>): seq<int>
    requires forall i | 0 <= i < |order| :: order[i] in actions
  {
    seq(|order|, i requires 0 <= i < |order| => actions[order[i]])
  }

  function Drop<T>(s: seq<T>, j: int): seq<T>
    requires 0 <= j < |s|
  {
    s[..j] + s[j + 1..]
  }

  lemma {:induction false} WeightsWithout(actions: map<string, int>, order: seq<string>, j: int)
    requires forall i | 0 <= i < |order| :: order[i] in actions
    requires 0 <= j < |order|
    ensures Sum(Weights(actions, order)) == Sum(Weights(actions, Drop(order, j))) + actions[order[j]]
  {
    var last := |order| - 1;
    assert Weights(actions, order)[..last] == Weights(actions, order[..last]);
    if j == last {
      assert Drop(order, j) == order[..last];
    } else {
      WeightsWithout(actions, order[..last], j);
      assert Drop(order, j)[..last - 1] == Drop(order[..last], j);
      assert Weights(actions, Drop(order, j))[..last - 1] == Weights(actions, Drop(order[..last], j));
    }
  }

  lemma EnumeratesWithout(order: seq<string>, actions: map<string, int>, j: int)
    requires Enumerates(order, actions) && 0 <= j < |order|
    ensures Enumerates(Drop(order, j), actions - {order[j]})
    ensures Weights(actions - {order[j]}, Drop(order, j)) == Weights(actions, Drop(order, j))
  {
    forall k | k in actions && k != order[j] ensures k in Drop(order, j) {
      var i :| 0 <= i < |order| && order[i] == k;
      assert Drop(order, j)[if i < j then i else i - 1] == k;
    }
  }

  lemma EnumeratesEmpty(order: seq<string>, actions: map<string, int>)
    requires Enumerates(order, actions)
    ensures order == [] <==> actions == map[]
  {
    assert order == [] || order[0] in actions;
    assert forall k | k in actions :: k in order;
  }

  /** The total of the frequencies is the same in every iteration order. */
  lemma {:induction false} TotalIsOrderFree(actions: map<string, int>, a: seq<string>, b: seq<string>)
    requires Enumerates(a, actions) && Enumerates(b, actions)
    ensures Sum(Weights(actions, a)) == Sum(Weights(actions, b))
    decreases |a|
  {
    EnumeratesEmpty(a, actions);
    EnumeratesEmpty(b, actions);
    if a != [] {
      var i := |a| - 1;
      var j := PositionOf(actions, b, a[i]);
      hide Enumerates;
      EnumeratesWithout(a, actions, i);
      EnumeratesWithout(b, actions, j);
      TotalIsOrderFree(actions - {a[i]}, Drop(a, i), Drop(b, j));
      WeightsWithout(actions, a, i);
      WeightsWithout(actions, b, j);
    }
  }

  lemma PositionOf(actions: map<string, int>, order: seq<string>, k: string) returns (j: int)
    requires Enumerates(order, actions) && k in actions
    ensures 0 <= j < |order| && order[j] == k
  {
    j :| 0 <= j < |order| && order[j] == k;
  }

  /** pickAction: the first loop sums in one order, the second subtracts in another. */
  method PickAction(actions: map<string, int>, first: seq<string>, second: seq<string>, draw: int)
    returns (r: Result<string, SelectError>)
    requires Enumerates(first, actions) && Enumerates(second, actions)
    requires 0 < Sum(Weights(actions, first)) ==> 0 <= draw < Sum(Weights(actions, first))
    ensures actions == map[] ==> r == Err(Empty)
    ensures actions != map[] && Sum(Weights(actions, first)) == 0 ==> r == Err(ZeroSum)
    ensures Sum(Weights(actions, first)) < 0 ==> r == Err(Panics)
    ensures 0 < Sum(Weights(actions, first)) ==>
              r.Ok? && Picks(actions, second, draw, r.value)
  {
    hide Sum;
    hide Picks;
    NoFrequencies(actions, first);
    if |actions| == 0 {
      return Err(Empty);
    }
    var sum := TotalFrequency(actions, first);
    if sum == 0 {
      return Err(ZeroSum);
    }
    if sum < 0 {
      return Err(Panics);
    }
    TotalIsOrderFree(actions, first, second);
    var id := Scan(actions, second, draw);
    return Ok(id);
  }

  lemma NoFrequencies(actions: map<string, int>, order: seq<string>)
    requires Enumerates(order, actions)
    ensures actions == map[] ==> Sum(Weights(actions, order)) == 0
  {
    EnumeratesEmpty(order, actions);
  }

  method TotalFrequency(actions: map<string, int>, order: seq<string>) returns (sum: int)
    requires Enumerates(order, actions)
    ensures sum == Sum(Weights(actions, order))
  {
    ghost var w := Weights(actions, order);
    PrefixEnds(w);
    sum := 0;
    for i := 0 to |order|
      invariant sum == Sum(w[..i])
    {
      PrefixStep(w, i);
      sum := sum + actions[order[i]];
    }
  }

  method Scan(actions: map<string, int>, order: seq<string>, draw: int) returns (id: string)
    requires Enumerates(order, actions) && 0 <= draw < Sum(Weights(actions, order))
    ensures Picks(actions, order, draw, id)
  {
    hide Sum, Picks, Selects;
    ghost var w := Weights(actions, order);
    PrefixEnds(w);
    var distance := draw;
    for i := 0 to |order|
      invariant distance == draw - Sum(w[..i])
      invariant NotBefore(w, draw, i)
    {
      PrefixStep(w, i);
      distance := distance - actions[order[i]];
      if distance < 0 {
        FoundAt(actions, order, draw, i);
        return order[i];
      }
    }
    assert false;
  }

  /** None of the first i indices is selected. */
  ghost predicate NotBefore(weights: seq<int>, draw: int, i: int) {
    0 <= i <= |weights| && forall j | 0 <= j <= i :: Sum(weights[..j]) <= draw
  }

  lemma FoundAt(actions: map<string, int>, order: seq<string>, draw: int, i: int)
    requires Enumerates(order, actions) && 0 <= i < |order|
    requires NotBefore(Weights(actions, order), draw, i) && draw < Sum(Weights(actions, order)[..i + 1])
    ensures Picks(actions, order, draw, order[i])
  {
    hide Sum;
    assert Selects(Weights(actions, order), draw, i);
  }

  ghost predicate Picks(actions: map<string, int>, order: seq<string>, draw: int, id: string)
    requires Enumerates(order, actions)
  {
    exists i :: 0 <= i < |order| && order[i] == id && Selects(Weights(actions, order), draw, i)
  }

  /** Whatever the iteration order, exactly actions[id] of the draws pick id. */
  lemma ExactWeightingInAnyOrder(actions: map<string, int>, order: seq<string>, id: string)
    requires Enumerates(order, actions) && id in actions
    requires forall k | k in actions :: 0 <= actions[k]
    ensures |set d | 0 <= d < Sum(Weights(actions, order)) && Picks(actions, order, d, id)| == actions[id]
  {
    var w := Weights(actions, order);
    var i :| 0 <= i < |order| && order[i] == id;
    ExactWeighting(w, i);
    assert (set d | 0 <= d < Sum(w) && Picks(actions, order, d, id)) == Draws(w, i);
  }
}
