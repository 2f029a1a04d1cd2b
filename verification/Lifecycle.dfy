/** loadtest/loadtest.go: adding, removing and counting users. What the goroutines do with the status
    channel is the subject of StatusProtocol. */
module Lifecycle {
  import opened Wrappers

  /** A user controller: its id, and which Run's status channel it was created with. */
  datatype Controller = Controller(id: int, epoch: nat)

  datatype LoadTestError =
    | InvalidNumUsers | NotRunning | NotStopped | MaxUsersReached | NoUsersLeft | CreateFailed | RateFailed

  datatype State = Stopped | Starting | Running | Stopping

  /** The users of a load-test. */
  datatype Roster = Roster(active: seq<Controller>, idle: seq<Controller>, numUsers: int, added: int, removed: int)

  datatype Limits = Limits(max: nat, initial: nat, avgSessions: nat)

  /** What chance and the outside decide for one new user: the two random numbers, and whether creating
      the controller and setting its rate work. */
  datatype Draw = Draw(session: nat, pick: nat, creates: bool, rates: bool)

  function UserId(active: nat, avgSessions: nat, d: Draw): int
    requires avgSessions > 0
  {
    if active != 0 && d.session % avgSessions != 0 then d.pick % active else active + 1
  }

  function Activate(r: Roster, c: Controller): Roster {
    r.(active := r.active + [c], numUsers := r.numUsers + 1, added := r.added + 1)
  }

  /** One user more. A controller taken from the idle ones is gone from them even if its rate is refused. */
  function AddOne(l: Limits, epoch: nat, r: Roster, d: Draw): (Roster, Option<LoadTestError>)
    requires l.avgSessions > 0
  {
    if |r.active| == l.max then (r, Some(MaxUsersReached))
    else if r.idle != [] then
      var rest := r.(idle := r.idle[1..]);
      if d.rates then (Activate(rest, r.idle[0]), None) else (rest, Some(RateFailed))
    else if !d.creates then (r, Some(CreateFailed))
    else if !d.rates then (r, Some(RateFailed))
    else (Activate(r, Controller(UserId(|r.active|, l.avgSessions, d), epoch)), None)
  }

  /** Users one after the other, until one fails. The number is how many were added. */
  function AddMany(l: Limits, epoch: nat, r: Roster, draws: seq<Draw>): (Roster, nat, Option<LoadTestError>)
    requires l.avgSessions > 0
    decreases |draws|
  {
    if draws == [] then (r, 0, None)
    else
      var (r', e) := AddOne(l, epoch, r, draws[0]);
      if e.Some? then (r', 0, e)
      else
        var (r'', n, e'') := AddMany(l, epoch, r', draws[1..]);
        (r'', n + 1, e'')
  }

  /** As many attempts as there are draws, whatever comes of each. */
  function TryAll(l: Limits, epoch: nat, r: Roster, draws: seq<Draw>): Roster
    requires l.avgSessions > 0
    decreases |draws|
  {
    if draws == [] then r else TryAll(l, epoch, AddOne(l, epoch, r, draws[0]).0, draws[1..])
  }

  /** The last n active controllers become idle, or all of them if there are fewer. */
  function RemoveMany(r: Roster, n: nat): (Roster, nat, Option<LoadTestError>) {
    var m := if n > |r.active| then |r.active| else n;
    var keep := |r.active| - m;
    (Roster(r.active[..keep], r.idle + r.active[keep..], r.numUsers - m, r.added, r.removed + m),
     m, if n > |r.active| then Some(NoUsersLeft) else None)
  }

  // ----- conservation -----

  /** The counters agree with each other and with the controllers, of which there are at most max. */
  predicate Conserved(max: nat, r: Roster) {
    && r.numUsers == |r.active| == r.added - r.removed
    && |r.active| + |r.idle| <= max
  }

  /** One user more or none; what is returned as an error says which. */
  lemma AddOneConserves(l: Limits, epoch: nat, r: Roster, d: Draw)
    requires l.avgSessions > 0 && Conserved(l.max, r)
    ensures var (r', e) := AddOne(l, epoch, r, d);
            && Conserved(l.max, r')
            && |r'.active| == |r.active| + (if e.None? then 1 else 0)
            && r'.added - r.added == |r'.active| - |r.active| && r'.removed == r.removed && r.active <= r'.active
            && (e == Some(MaxUsersReached) <==> |r.active| == l.max)
            && (e == Some(CreateFailed) <==> |r.active| != l.max && r.idle == [] && !d.creates)
            && (e == Some(RateFailed) <==> |r.active| != l.max && (r.idle != [] || d.creates) && !d.rates)
            && (e.None? && r.idle != [] ==> r'.active[|r.active|] == r.idle[0] && r'.idle == r.idle[1..])
            && (e.None? && r.idle == [] ==> r'.active[|r.active|].epoch == epoch && r'.idle == [])
  {
  }

  lemma AddOneGrows(l: Limits, epoch: nat, r: Roster, d: Draw)
    requires l.avgSessions > 0
    ensures AddOne(l, epoch, r, d).1.None? ==> AddOne(l, epoch, r, d).0.active != []
  {
  }

  /** The number returned is the true change, also when an error stops the additions halfway. */
  lemma {:induction false} AddManyConserves(l: Limits, epoch: nat, r: Roster, draws: seq<Draw>)
    requires l.avgSessions > 0 && Conserved(l.max, r)
    ensures var (r', n, e) := AddMany(l, epoch, r, draws);
            && Conserved(l.max, r')
            && |r'.active| == |r.active| + n && r'.added == r.added + n && r'.removed == r.removed
            && r.active <= r'.active
            && (e.None? <==> n == |draws|)
            && (e == Some(MaxUsersReached) <==> n < |draws| && |r'.active| == l.max)
    decreases |draws|
  {
    hide Conserved, AddOne;
    if draws != [] {
      AddOneConserves(l, epoch, r, draws[0]);
      if AddOne(l, epoch, r, draws[0]).1.None? {
        AddManyConserves(l, epoch, AddOne(l, epoch, r, draws[0]).0, draws[1..]);
      }
    }
  }

  lemma {:induction false} TryAllConserves(l: Limits, epoch: nat, r: Roster, draws: seq<Draw>)
    requires l.avgSessions > 0 && Conserved(l.max, r)
    ensures Conserved(l.max, TryAll(l, epoch, r, draws))
    decreases |draws|
  {
    hide Conserved, AddOne;
    if draws != [] {
      AddOneConserves(l, epoch, r, draws[0]);
      TryAllConserves(l, epoch, AddOne(l, epoch, r, draws[0]).0, draws[1..]);
    }
  }

  lemma RemoveManyConserves(max: nat, r: Roster, n: nat)
    requires Conserved(max, r)
    ensures var (r', m, e) := RemoveMany(r, n);
            && Conserved(max, r')
            && |r'.active| == |r.active| - m && r'.removed == r.removed + m && r'.added == r.added
            && r'.active <= r.active && r'.idle == r.idle + r.active[|r'.active|..]
            && (e.None? <==> m == n)
            && (m < n ==> r'.active == [])
  {
  }

  // ----- controller ids -----

  function IdsOf(s: seq<Controller>): (ids: seq<int>)
    ensures |ids| == |s| && forall i | 0 <= i < |s| :: ids[i] == s[i].id
  {
    seq(|s|, i requires 0 <= i < |s| => s[i].id)
  }

  ghost function Bag(s: seq<Controller>): multiset<int> {
    multiset(IdsOf(s))
  }

  lemma BagAppend(s: seq<Controller>, t: seq<Controller>)
    ensures Bag(s + t) == Bag(s) + Bag(t)
  {
    assert IdsOf(s + t) == IdsOf(s) + IdsOf(t);
  }

  lemma BagOne(c: Controller)
    ensures Bag([c]) == multiset{c.id}
  {
    assert IdsOf([c]) == [c.id];
  }

  ghost function Ids(r: Roster): multiset<int> {
    Bag(r.active) + Bag(r.idle)
  }

  ghost function FirstNumbers(k: nat): multiset<int> {
    if k == 0 then multiset{} else FirstNumbers(k - 1) + multiset{k}
  }

  /** The ids of the controllers are exactly 1 to their number, each once. */
  ghost predicate Numbered(r: Roster) {
    Ids(r) == FirstNumbers(|r.active| + |r.idle|)
  }

  lemma {:induction false} FirstNumbersOnce(k: nat, x: int)
    ensures FirstNumbers(k)[x] == if 1 <= x <= k then 1 else 0
  {
    if k > 0 {
      FirstNumbersOnce(k - 1, x);
    }
  }

  lemma RemoveManyKeepsIds(r: Roster, n: nat)
    ensures Ids(RemoveMany(r, n).0) == Ids(r)
    ensures Numbered(RemoveMany(r, n).0) <==> Numbered(r)
  {
    hide Bag, FirstNumbers;
    var m := RemoveMany(r, n).1;
    var keep := |r.active| - m;
    var kept, gone := r.active[..keep], r.active[keep..];
    assert r.active == kept + gone;
    BagAppend(kept, gone);
    BagAppend(r.idle, gone);
    Regroup(Bag(kept), Bag(r.idle), Bag(gone));
  }

  lemma Regroup(a: multiset<int>, b: multiset<int>, c: multiset<int>)
    ensures a + (b + c) == (a + c) + b
    ensures (a + b) + c == a + (c + b)
  {
  }

  lemma ActivateIds(r: Roster, c: Controller)
    ensures Ids(Activate(r, c)) == Ids(r) + multiset{c.id}
  {
    hide Bag;
    BagAppend(r.active, [c]);
    BagOne(c);
    Regroup(Bag(r.active), multiset{c.id}, Bag(r.idle));
  }

  lemma FirstIdleIds(r: Roster)
    requires r.idle != []
    ensures Ids(r) == Ids(r.(idle := r.idle[1..])) + multiset{r.idle[0].id}
  {
    hide Bag;
    assert r.idle == [r.idle[0]] + r.idle[1..];
    BagAppend([r.idle[0]], r.idle[1..]);
    BagOne(r.idle[0]);
    Regroup(Bag(r.active), Bag(r.idle[1..]), multiset{r.idle[0].id});
  }

  lemma LostId(rest: multiset<int>, x: int, k: nat)
    requires rest + multiset{x} == FirstNumbers(k) && k > 0
    ensures rest == FirstNumbers(k - 1) <==> x == k
  {
    hide FirstNumbers;
    FirstNumbersOnce(k, k);
    FirstNumbersOnce(k - 1, k);
    LastNumber(k);
    if x == k {
      assert rest == rest + multiset{x} - multiset{x};
      assert FirstNumbers(k - 1) == FirstNumbers(k - 1) + multiset{k} - multiset{k};
    } else {
      assert (rest + multiset{x})[k] == rest[k];
    }
  }

  lemma LastNumber(k: nat)
    requires k > 0
    ensures FirstNumbers(k) == FirstNumbers(k - 1) + multiset{k}
  {
  }

  lemma OneSession(active: nat, d: Draw)
    ensures UserId(active, 1, d) == active + 1
  {
  }

  /** A controller is lost when it is taken from the idle ones and its rate is refused. */
  predicate LosesController(l: Limits, r: Roster, d: Draw) {
    |r.active| != l.max && r.idle != [] && !d.rates
  }

  /** With one session per user, one more user keeps the ids 1 to k exactly when no controller is lost, or
      the one that is has the highest id. */
  lemma AddOneKeepsIds(l: Limits, epoch: nat, r: Roster, d: Draw)
    requires l.avgSessions == 1 && Numbered(r)
    ensures Numbered(AddOne(l, epoch, r, d).0)
            <==> (LosesController(l, r, d) ==> r.idle[0].id == |r.active| + |r.idle|)
  {
    hide Ids, FirstNumbers, UserId, Activate;
    var k := |r.active| + |r.idle|;
    if |r.active| != l.max {
      if r.idle != [] {
        var rest := r.(idle := r.idle[1..]);
        FirstIdleIds(r);
        ActivateIds(rest, r.idle[0]);
        ActivateCounts(rest, r.idle[0]);
        LostId(Ids(rest), r.idle[0].id, k);
      } else {
        OneSession(k, d);
        var c := Controller(k + 1, epoch);
        ActivateIds(r, c);
        ActivateCounts(r, c);
        LastNumber(k + 1);
      }
    }
  }

  lemma ActivateCounts(r: Roster, c: Controller)
    ensures |Activate(r, c).active| == |r.active| + 1 && Activate(r, c).idle == r.idle
  {
  }

  ghost predicate RatesAccepted(draws: seq<Draw>) {
    forall i | 0 <= i < |draws| :: draws[i].rates
  }

  lemma {:induction false} AddManyKeepsIds(l: Limits, epoch: nat, r: Roster, draws: seq<Draw>)
    requires l.avgSessions == 1 && Numbered(r) && RatesAccepted(draws)
    ensures Numbered(AddMany(l, epoch, r, draws).0) && Numbered(TryAll(l, epoch, r, draws))
    decreases |draws|
  {
    hide Numbered, AddOne;
    if draws != [] {
      AddOneKeepsIds(l, epoch, r, draws[0]);
      AddManyKeepsIds(l, epoch, AddOne(l, epoch, r, draws[0]).0, draws[1..]);
    }
  }

  /** The run starts with two users. They are removed, and then three more are added, the first of them in
      vain because its rate is refused: the last two have the same id. */
  lemma DuplicateId()
    ensures var l := Limits(3, 2, 1);
            var ok, refused := Draw(0, 0, true, true), Draw(0, 0, true, false);
            var two := TryAll(l, 1, Roster([], [], 0, 0, 0), [ok, ok]);
            var r := TryAll(l, 1, RemoveMany(two, 2).0, [refused, ok, ok]);
            Numbered(two) && IdsOf(r.active) == [2, 2]
  {
    hide AddOne, TryAll, Numbered, RemoveMany, IdsOf;
    var l := Limits(3, 2, 1);
    var ok, refused := Draw(0, 0, true, true), Draw(0, 0, true, false);
    NobodyNumbered();
    AddManyKeepsIds(l, 1, Roster([], [], 0, 0, 0), [ok, ok]);
    var two := Controller(2, 1);
    var idle := Roster([], [Controller(1, 1), two], 0, 2, 2);
    StartWithTwo(l, ok);
    LoseFirst(l, idle, refused, ok);
    assert IdsOf([two, two]) == [2, 2];
  }

  lemma AddFresh(l: Limits, r: Roster, d: Draw)
    requires l.avgSessions == 1 && |r.active| < l.max && r.idle == [] && d.creates && d.rates
    ensures AddOne(l, 1, r, d).0 == Activate(r, Controller(|r.active| + 1, 1))
  {
    hide UserId, Activate;
    OneSession(|r.active|, d);
  }

  lemma StartWithTwo(l: Limits, d: Draw)
    requires l.avgSessions == 1 && l.max == 3 && d.creates && d.rates
    ensures RemoveMany(TryAll(l, 1, Roster([], [], 0, 0, 0), [d, d]), 2).0
            == Roster([], [Controller(1, 1), Controller(2, 1)], 0, 2, 2)
  {
    hide AddOne;
    var one, two := Controller(1, 1), Controller(2, 1);
    AddFresh(l, Roster([], [], 0, 0, 0), d);
    AddFresh(l, Roster([one], [], 1, 1, 0), d);
    TryTwo(l, Roster([], [], 0, 0, 0), d, d);
    assert Activate(Roster([], [], 0, 0, 0), one) == Roster([one], [], 1, 1, 0);
    assert Activate(Roster([one], [], 1, 1, 0), two) == Roster([one, two], [], 2, 2, 0);
    assert RemoveMany(Roster([one, two], [], 2, 2, 0), 2).0 == Roster([], [one, two], 0, 2, 2);
  }

  lemma LoseFirst(l: Limits, r: Roster, refused: Draw, ok: Draw)
    requires l.avgSessions == 1 && l.max == 3 && ok.creates && ok.rates && !refused.rates
    requires r == Roster([], [Controller(1, 1), Controller(2, 1)], 0, 2, 2)
    ensures TryAll(l, 1, r, [refused, ok, ok]).active == [Controller(2, 1), Controller(2, 1)]
  {
    hide UserId;
    var two := Controller(2, 1);
    var r1, r2 := Roster([], [two], 0, 2, 2), Roster([two], [], 1, 3, 2);
    assert r.idle[1..] == [two] && [two][1..] == [];
    assert AddOne(l, 1, r, refused).0 == r1;
    assert AddOne(l, 1, r1, ok).0 == r2;
    AddFresh(l, r2, ok);
    TryThree(l, r, refused, ok, ok);
  }

  lemma NobodyNumbered()
    ensures Numbered(Roster([], [], 0, 0, 0))
  {
    assert IdsOf([]) == [];
  }

  lemma TryTwo(l: Limits, r: Roster, d: Draw, d': Draw)
    requires l.avgSessions > 0
    ensures TryAll(l, 1, r, [d, d']) == AddOne(l, 1, AddOne(l, 1, r, d).0, d').0
  {
    hide AddOne;
    var r1 := AddOne(l, 1, r, d).0;
    assert [d, d'][1..] == [d'] && [d'][1..] == [];
    assert TryAll(l, 1, r1, [d']) == AddOne(l, 1, r1, d').0;
  }

  lemma TryThree(l: Limits, r: Roster, d: Draw, d': Draw, d'': Draw)
    requires l.avgSessions > 0
    ensures TryAll(l, 1, r, [d, d', d''])
            == AddOne(l, 1, AddOne(l, 1, AddOne(l, 1, r, d).0, d').0, d'').0
  {
    hide AddOne;
    assert [d, d', d''][1..] == [d', d''];
    TryTwo(l, AddOne(l, 1, r, d).0, d', d'');
  }

  // ----- any sequence of public calls -----

  datatype Call = RunCall(draws: seq<Draw>) | AddCall(n: int, draws: seq<Draw>) | RemoveCall(n: int) | StopCall

  /** What the public calls work on. */
  datatype Tester = Tester(state: State, epoch: nat, users: Roster)

  function Do(l: Limits, t: Tester, c: Call): Tester
    requires l.avgSessions > 0
  {
    match c
    case RunCall(draws) =>
      if t.state != Stopped then t
      else Tester(Running, t.epoch + 1, TryAll(l, t.epoch + 1, Roster([], t.users.idle, 0, 0, 0), draws))
    case AddCall(n, draws) =>
      if n <= 0 || t.state != Running then t
      else t.(users := AddMany(l, t.epoch, t.users, draws).0)
    case RemoveCall(n) =>
      if n <= 0 || t.state != Running then t
      else t.(users := RemoveMany(t.users, n).0)
    case StopCall =>
      if t.state != Running then t
      else t.(state := Stopped, users := RemoveMany(t.users, |t.users.active|).0)
  }

  function DoAll(l: Limits, calls: seq<Call>): Tester
    requires l.avgSessions > 0
  {
    if calls == [] then Tester(Stopped, 0, Roster([], [], 0, 0, 0))
    else Do(l, DoAll(l, calls[..|calls| - 1]), calls[|calls| - 1])
  }

  predicate Between(l: Limits, t: Tester) {
    && Conserved(l.max, t.users)
    && (t.state == Running || t.state == Stopped)
    && (t.state == Stopped ==> t.users.active == [])
  }

  ghost predicate CallRates(c: Call) {
    match c
    case RunCall(draws) => RatesAccepted(draws)
    case AddCall(_, draws) => RatesAccepted(draws)
    case _ => true
  }

  lemma DoKeeps(l: Limits, t: Tester, c: Call)
    requires l.avgSessions > 0 && Between(l, t)
    ensures Between(l, Do(l, t, c))
    ensures l.avgSessions == 1 && Numbered(t.users) && CallRates(c) ==> Numbered(Do(l, t, c).users)
  {
    hide Numbered, Conserved, AddMany, TryAll, RemoveMany, RatesAccepted;
    match c {
      case RunCall(draws) =>
        if t.state == Stopped {
          StoppedIsConserved(l.max, t.users);
          TryAllConserves(l, t.epoch + 1, Roster([], t.users.idle, 0, 0, 0), draws);
          if l.avgSessions == 1 && Numbered(t.users) && CallRates(c) {
            AddManyKeepsIds(l, t.epoch + 1, Roster([], t.users.idle, 0, 0, 0), draws);
          }
        }
      case AddCall(n, draws) =>
        AddManyConserves(l, t.epoch, t.users, draws);
        if l.avgSessions == 1 && Numbered(t.users) && CallRates(c) {
          AddManyKeepsIds(l, t.epoch, t.users, draws);
        }
      case RemoveCall(n) =>
        if n > 0 {
          RemoveManyConserves(l.max, t.users, n);
          RemoveManyKeepsIds(t.users, n);
        }
      case StopCall =>
        RemoveManyConserves(l.max, t.users, |t.users.active|);
        RemoveManyKeepsIds(t.users, |t.users.active|);
    }
  }

  lemma StoppedIsConserved(max: nat, r: Roster)
    requires Conserved(max, r) && r.active == []
    ensures r.numUsers == 0 && Conserved(max, Roster([], r.idle, 0, 0, 0))
    ensures Numbered(r) ==> Numbered(Roster([], r.idle, 0, 0, 0))
  {
    hide Bag;
  }

  ghost predicate AllRates(draws: seq<Draw>, accepted: bool) {
    forall i | 0 <= i < |draws| :: draws[i].rates == accepted
  }

  ghost predicate CallHasRates(c: Call, accepted: bool) {
    match c
    case RunCall(draws) => AllRates(draws, accepted)
    case AddCall(_, draws) => AllRates(draws, accepted)
    case _ => true
  }

  lemma {:induction false} NoneAdded(l: Limits, epoch: nat, draws: seq<Draw>)
    requires l.avgSessions > 0 && AllRates(draws, false)
    ensures AddMany(l, epoch, Roster([], [], 0, 0, 0), draws).0 == Roster([], [], 0, 0, 0)
    ensures TryAll(l, epoch, Roster([], [], 0, 0, 0), draws) == Roster([], [], 0, 0, 0)
    decreases |draws|
  {
    if draws != [] {
      assert !draws[0].rates;
      NoneAdded(l, epoch, draws[1..]);
    }
  }

  lemma NobodyStays(l: Limits, t: Tester, c: Call)
    requires l.avgSessions > 0 && t.users == Roster([], [], 0, 0, 0) && CallHasRates(c, false)
    ensures Do(l, t, c).users == Roster([], [], 0, 0, 0)
  {
    hide AddMany, TryAll, AllRates;
    match c {
      case RunCall(draws) => NoneAdded(l, t.epoch + 1, draws);
      case AddCall(n, draws) => NoneAdded(l, t.epoch, draws);
      case RemoveCall(n) =>
      case StopCall =>
    }
  }

  /** Where rates are always accepted or always refused, as the configuration and the controllers of the
      program decide once and for all, no controller is ever lost: the ids are 1 to their number. */
  lemma {:induction false} ConstantRatesKeepIds(l: Limits, calls: seq<Call>, accepted: bool)
    requires l.avgSessions == 1
    requires forall i | 0 <= i < |calls| :: CallHasRates(calls[i], accepted)
    ensures Numbered(DoAll(l, calls).users)
    ensures !accepted ==> DoAll(l, calls).users == Roster([], [], 0, 0, 0)
  {
    hide Do, Numbered, CallRates, CallHasRates;
    if calls == [] {
      NobodyNumbered();
    } else {
      var before, c := calls[..|calls| - 1], calls[|calls| - 1];
      ConstantRatesKeepIds(l, before, accepted);
      if accepted {
        AcceptedRates(c);
        LifecycleConserved(l, before);
        DoKeeps(l, DoAll(l, before), c);
      } else {
        NobodyStays(l, DoAll(l, before), c);
        NobodyNumbered();
      }
    }
  }

  lemma AcceptedRates(c: Call)
    requires CallHasRates(c, true)
    ensures CallRates(c)
  {
  }

  /** Between any public calls, whatever fails in them: the number of users is the number of active
      controllers and the users added less those removed, and there are at most max controllers in all. With
      one session per user and rates that are accepted, their ids are 1 to their number. */
  lemma {:induction false} LifecycleConserved(l: Limits, calls: seq<Call>)
    requires l.avgSessions > 0
    ensures Between(l, DoAll(l, calls))
    ensures l.avgSessions == 1 && (forall i | 0 <= i < |calls| :: CallRates(calls[i]))
            ==> Numbered(DoAll(l, calls).users)
  {
    hide Do, Numbered, CallRates;
    if calls == [] {
      NobodyNumbered();
    } else {
      LifecycleConserved(l, calls[..|calls| - 1]);
      DoKeeps(l, DoAll(l, calls[..|calls| - 1]), calls[|calls| - 1]);
    }
  }

  // ----- the load-tester -----

  class LoadTester {
    const limits: Limits
    var state: State
    var epoch: nat
    var activeControllers: seq<Controller>
    var idleControllers: seq<Controller>
    var numUsers: int
    var numUsersAdded: int
    var numUsersRemoved: int

    function Users(): Roster
      reads this
    {
      Roster(activeControllers, idleControllers, numUsers, numUsersAdded, numUsersRemoved)
    }

    function View(): Tester
      reads this
    {
      Tester(state, epoch, Users())
    }

    predicate Valid()
      reads this
    {
      limits.avgSessions > 0 && limits.initial <= limits.max && Between(limits, View())
    }

    constructor (limits: Limits)
      requires limits.avgSessions > 0 && limits.initial <= limits.max
      ensures Valid() && this.limits == limits && View() == DoAll(limits, [])
    {
      this.limits := limits;
      state, epoch := Stopped, 0;
      activeControllers, idleControllers := [], [];
      numUsers, numUsersAdded, numUsersRemoved := 0, 0, 0;
    }

    method AddUser(d: Draw) returns (err: Option<LoadTestError>)
      requires limits.avgSessions > 0
      modifies this`activeControllers, this`idleControllers, this`numUsers, this`numUsersAdded
      ensures (Users(), err) == AddOne(limits, epoch, old(Users()), d)
    {
      var activeUsers := |activeControllers|;
      if activeUsers == limits.max {
        return Some(MaxUsersReached);
      }
      var controller;
      if |idleControllers| > 0 {
        controller := idleControllers[0];
        idleControllers := idleControllers[1..];
      } else {
        var userId := activeUsers + 1;
        if activeUsers != 0 && d.session % limits.avgSessions != 0 {
          userId := d.pick % activeUsers;
        }
        if !d.creates {
          return Some(CreateFailed);
        }
        controller := Controller(userId, epoch);
      }
      if !d.rates {
        return Some(RateFailed);
      }
      numUsers := numUsers + 1;
      numUsersAdded := numUsersAdded + 1;
      activeControllers := activeControllers + [controller];
      return None;
    }

    method AddUsers(n: int, draws: seq<Draw>) returns (added: nat, err: Option<LoadTestError>)
      requires Valid() && (n > 0 ==> |draws| == n)
      modifies this`activeControllers, this`idleControllers, this`numUsers, this`numUsersAdded
      ensures Valid()
      ensures View() == Do(limits, old(View()), AddCall(n, draws))
      ensures numUsers - old(numUsers) == added == numUsersAdded - old(numUsersAdded)
      ensures n <= 0 ==> added == 0 && err == Some(InvalidNumUsers) && Users() == old(Users())
      ensures n > 0 && state != Running ==> added == 0 && err == Some(NotRunning) && Users() == old(Users())
      ensures n > 0 && state == Running ==>
                (Users(), added, err) == AddMany(limits, epoch, old(Users()), draws)
    {
      hide AddOne, Conserved;
      if n <= 0 {
        return 0, Some(InvalidNumUsers);
      }
      if state != Running {
        return 0, Some(NotRunning);
      }
      ghost var before := Users();
      AddManyConserves(limits, epoch, before, draws);
      AddManyCounts(limits, epoch, before, draws);
      for i := 0 to n
        invariant limits.avgSessions > 0
        invariant AddMany(limits, epoch, before, draws)
                  == Later(i, AddMany(limits, epoch, Users(), draws[i..]))
      {
        assert draws[i..][1..] == draws[i + 1..];
        err := AddUser(draws[i]);
        if err.Some? {
          return i, err;
        }
      }
      return n, None;
    }

    method RemoveUsersLocked(n: nat) returns (removed: nat, err: Option<LoadTestError>)
      modifies this`activeControllers, this`idleControllers, this`numUsers, this`numUsersRemoved
      ensures (Users(), removed, err) == RemoveMany(old(Users()), n)
    {
      var activeUsers := |activeControllers|;
      removed, err := n, None;
      if n > activeUsers {
        removed, err := activeUsers, Some(NoUsersLeft);
      }
      idleControllers := idleControllers + activeControllers[activeUsers - removed..];
      activeControllers := activeControllers[..activeUsers - removed];
      numUsers := numUsers - removed;
      numUsersRemoved := numUsersRemoved + removed;
    }

    method RemoveUsers(n: int) returns (removed: nat, err: Option<LoadTestError>)
      requires Valid()
      modifies this`activeControllers, this`idleControllers, this`numUsers, this`numUsersRemoved
      ensures Valid()
      ensures View() == Do(limits, old(View()), RemoveCall(n))
      ensures old(numUsers) - numUsers == removed == numUsersRemoved - old(numUsersRemoved)
      ensures n <= 0 ==> removed == 0 && err == Some(InvalidNumUsers) && Users() == old(Users())
      ensures n > 0 && state != Running ==> removed == 0 && err == Some(NotRunning) && Users() == old(Users())
      ensures n > 0 && state == Running ==> (Users(), removed, err) == RemoveMany(old(Users()), n)
    {
      if n <= 0 {
        return 0, Some(InvalidNumUsers);
      }
      if state != Running {
        return 0, Some(NotRunning);
      }
      RemoveManyConserves(limits.max, Users(), n);
      removed, err := RemoveUsersLocked(n);
    }

    /** A run starts from the idle controllers there are, with its counters at zero. */
    method Run(draws: seq<Draw>) returns (err: Option<LoadTestError>)
      requires Valid() && |draws| == limits.initial
      modifies this
      ensures Valid() && state == Running
      ensures View() == Do(limits, old(View()), RunCall(draws))
      ensures err == if old(state) == Stopped then None else Some(NotStopped)
    {
      hide AddOne, Conserved;
      if state != Stopped {
        return Some(NotStopped);
      }
      StoppedIsConserved(limits.max, Users());
      state := Starting;
      numUsersRemoved, numUsersAdded := 0, 0;
      epoch := epoch + 1;
      ghost var before := Users();
      TryAllConserves(limits, epoch, before, draws);
      for i := 0 to limits.initial
        invariant limits.avgSessions > 0 && epoch == old(epoch) + 1
        invariant TryAll(limits, epoch, before, draws) == TryAll(limits, epoch, Users(), draws[i..])
      {
        assert draws[i..][1..] == draws[i + 1..];
        var _ := AddUser(draws[i]);
      }
      state := Running;
      return None;
    }

    method Stop() returns (err: Option<LoadTestError>)
      requires Valid()
      modifies this`state, this`activeControllers, this`idleControllers, this`numUsers, this`numUsersRemoved
      ensures Valid() && state == Stopped
      ensures View() == Do(limits, old(View()), StopCall)
      ensures err == if old(state) == Running then None else Some(NotRunning)
      ensures numUsers == 0 && numUsersAdded == numUsersRemoved
    {
      if state != Running {
        return Some(NotRunning);
      }
      state := Stopping;
      RemoveManyConserves(limits.max, Users(), |activeControllers|);
      var _, _ := RemoveUsersLocked(|activeControllers|);
      numUsers := 0;
      state := Stopped;
      return None;
    }
  }

  ghost function Later(i: nat, r: (Roster, nat, Option<LoadTestError>)): (Roster, nat, Option<LoadTestError>) {
    (r.0, r.1 + i, r.2)
  }

  lemma AddManyCounts(l: Limits, epoch: nat, r: Roster, draws: seq<Draw>)
    requires l.avgSessions > 0 && Conserved(l.max, r)
    ensures var (r', n, e) := AddMany(l, epoch, r, draws);
            r'.numUsers - r.numUsers == n
  {
    hide AddMany;
    AddManyConserves(l, epoch, r, draws);
  }
}
