/** loadtest/loadtest.go:92-97: the ids of controllers when users have several sessions. An id drawn for a further
    session is meant to be one in use. */
module SessionIds {
  import opened Wrappers
  import opened Lifecycle

  // ----- creations, numbered from 1 -----

  /** The draw with index p, which makes controller p + 1, is for a further session of some user. */
  predicate Reuses(avgSessions: nat, made: seq<Draw>, p: nat)
    requires avgSessions > 0 && p < |made|
  {
    p > 0 && made[p].session % avgSessions != 0
  }

  function Given(avgSessions: nat, made: seq<Draw>): (ids: seq<int>)
    requires avgSessions > 0
    ensures |ids| == |made| && forall p | 0 <= p < |ids| :: ids[p] == UserId(p, avgSessions, made[p])
  {
    seq(|made|, p requires 0 <= p < |made| => UserId(p, avgSessions, made[p]))
  }

  /** The id drawn belongs to a controller made before. */
  ghost predicate InUse(avgSessions: nat, made: seq<Draw>, p: nat)
    requires avgSessions > 0 && p < |made|
  {
    Given(avgSessions, made)[p] in Given(avgSessions, made[..p])
  }

  /** The number drawn is that of an earlier creation which was not itself a further session. */
  predicate Hits(avgSessions: nat, made: seq<Draw>, p: nat)
    requires avgSessions > 0 && 0 < p < |made|
  {
    var j := made[p].pick % p;
    1 <= j && !Reuses(avgSessions, made, j - 1)
  }

  ghost predicate AllInUse(avgSessions: nat, made: seq<Draw>)
    requires avgSessions > 0
  {
    forall p: nat | p < |made| && Reuses(avgSessions, made, p) :: InUse(avgSessions, made, p)
  }

  ghost predicate AllHit(avgSessions: nat, made: seq<Draw>)
    requires avgSessions > 0
  {
    forall p: nat | p < |made| && Reuses(avgSessions, made, p) :: Hits(avgSessions, made, p)
  }

  /** The ids given are the numbers of the creations that were not further sessions. */
  ghost predicate FreshOnly(avgSessions: nat, made: seq<Draw>)
    requires avgSessions > 0
  {
    forall x: int :: x in Given(avgSessions, made) <==> 1 <= x <= |made| && !Reuses(avgSessions, made, x - 1)
  }

  lemma LastHit(avgSessions: nat, made: seq<Draw>)
    requires avgSessions > 0 && made != [] && FreshOnly(avgSessions, made[..|made| - 1])
    requires Reuses(avgSessions, made, |made| - 1)
    ensures InUse(avgSessions, made, |made| - 1) <==> Hits(avgSessions, made, |made| - 1)
  {
    var p := |made| - 1;
    var j := made[p].pick % p;
    assert Given(avgSessions, made)[p] == j;
    if 1 <= j {
      assert made[..p][j - 1] == made[j - 1];
    }
  }

  lemma FreshGrows(avgSessions: nat, made: seq<Draw>)
    requires avgSessions > 0 && made != [] && FreshOnly(avgSessions, made[..|made| - 1])
    requires Reuses(avgSessions, made, |made| - 1) ==> Hits(avgSessions, made, |made| - 1)
    ensures FreshOnly(avgSessions, made)
  {
    var p := |made| - 1;
    var before, ids := Given(avgSessions, made[..p]), Given(avgSessions, made);
    assert ids == before + [ids[p]];
    forall x: int ensures x in ids <==> 1 <= x <= |made| && !Reuses(avgSessions, made, x - 1) {
      assert x in ids <==> x in before || x == ids[p];
      if 1 <= x <= p {
        assert made[..p][x - 1] == made[x - 1];
      }
    }
  }

  lemma PrefixesAgree(avgSessions: nat, made: seq<Draw>, p: nat)
    requires avgSessions > 0 && made != [] && p < |made| - 1
    ensures Reuses(avgSessions, made, p) == Reuses(avgSessions, made[..|made| - 1], p)
    ensures InUse(avgSessions, made, p) <==> InUse(avgSessions, made[..|made| - 1], p)
    ensures p > 0 ==> Hits(avgSessions, made, p) == Hits(avgSessions, made[..|made| - 1], p)
  {
    assert made[..|made| - 1][..p] == made[..p];
  }

  lemma OneMoreInUse(avgSessions: nat, made: seq<Draw>)
    requires avgSessions > 0 && made != []
    ensures AllInUse(avgSessions, made)
            <==> AllInUse(avgSessions, made[..|made| - 1])
                 && (Reuses(avgSessions, made, |made| - 1) ==> InUse(avgSessions, made, |made| - 1))
  {
    hide InUse, Reuses;
    var init := made[..|made| - 1];
    forall p: nat | p < |made| - 1
      ensures Reuses(avgSessions, made, p) == Reuses(avgSessions, init, p)
      ensures InUse(avgSessions, made, p) <==> InUse(avgSessions, init, p)
    {
      PrefixesAgree(avgSessions, made, p);
    }
  }

  lemma OneMoreHit(avgSessions: nat, made: seq<Draw>)
    requires avgSessions > 0 && made != []
    ensures AllHit(avgSessions, made)
            <==> AllHit(avgSessions, made[..|made| - 1])
                 && (Reuses(avgSessions, made, |made| - 1) ==> Hits(avgSessions, made, |made| - 1))
  {
    hide Hits;
    var init := made[..|made| - 1];
    forall p: nat | p < |made| - 1
      ensures Reuses(avgSessions, made, p) == Reuses(avgSessions, init, p)
      ensures p > 0 ==> Hits(avgSessions, made, p) == Hits(avgSessions, init, p)
    {
      PrefixesAgree(avgSessions, made, p);
    }
  }

  /** Every further session gets an id in use if and only if each of them draws the number of a creation that
      was not itself a further session. */
  lemma {:induction false} ReusesExactly(avgSessions: nat, made: seq<Draw>)
    requires avgSessions > 0
    ensures AllInUse(avgSessions, made) <==> AllHit(avgSessions, made)
    ensures AllHit(avgSessions, made) ==> FreshOnly(avgSessions, made)
  {
    hide AllInUse, AllHit, FreshOnly, InUse, Hits;
    if made == [] {
      NobodyMade(avgSessions);
    } else {
      ReusesExactly(avgSessions, made[..|made| - 1]);
      OneMoreInUse(avgSessions, made);
      OneMoreHit(avgSessions, made);
      if AllHit(avgSessions, made[..|made| - 1]) {
        if Reuses(avgSessions, made, |made| - 1) {
          LastHit(avgSessions, made);
        }
        if AllHit(avgSessions, made) {
          FreshGrows(avgSessions, made);
        }
      }
    }
  }

  lemma NobodyMade(avgSessions: nat)
    requires avgSessions > 0
    ensures AllInUse(avgSessions, []) && AllHit(avgSessions, []) && FreshOnly(avgSessions, [])
  {
  }

  /** As long as the ids are 1 to their number, the next further session gets an id in use if and only if the
      draw is not a multiple of the number of active users. */
  lemma ReusedIds(r: Roster, avgSessions: nat, d: Draw)
    requires Numbered(r) && r.idle == [] && r.active != []
    requires avgSessions > 0 && d.session % avgSessions != 0
    ensures UserId(|r.active|, avgSessions, d) in Ids(r) <==> d.pick % |r.active| != 0
  {
    hide Ids;
    FirstNumbersOnce(|r.active|, UserId(|r.active|, avgSessions, d));
  }

  lemma AddSession(l: Limits, r: Roster, d: Draw, id: int)
    requires l.avgSessions > 0 && |r.active| < l.max && r.idle == [] && d.creates && d.rates
    requires id == UserId(|r.active|, l.avgSessions, d)
    ensures AddOne(l, 1, r, d) == (Activate(r, Controller(id, 1)), None)
  {
    hide UserId;
  }

  lemma TryFour(l: Limits, r: Roster, d1: Draw, d2: Draw, d3: Draw, d4: Draw)
    requires l.avgSessions > 0
    ensures TryAll(l, 1, r, [d1, d2, d3, d4])
            == AddOne(l, 1, AddOne(l, 1, AddOne(l, 1, AddOne(l, 1, r, d1).0, d2).0, d3).0, d4).0
  {
    hide AddOne;
    assert [d1, d2, d3, d4][1..] == [d2, d3, d4];
    TryThree(l, AddOne(l, 1, r, d1).0, d2, d3, d4);
  }

  /** A load-test with two sessions per user can start with the ids 1, 2, 0 and 4, where the 0 is drawn as one
      in use, and then draw 3 as one in use, which nobody ever had. */
  lemma StrangerIds()
    ensures var l := Limits(5, 4, 2);
            var first, zero, three := Draw(0, 0, true, true), Draw(1, 0, true, true), Draw(1, 3, true, true);
            var r := TryAll(l, 1, Roster([], [], 0, 0, 0), [first, first, zero, first]);
            && r.idle == [] && IdsOf(r.active) == [1, 2, 0, 4]
            && three.session % l.avgSessions != 0 && UserId(|r.active|, l.avgSessions, three) == 3
  {
    hide AddOne, TryAll, Activate;
    var l := Limits(5, 4, 2);
    var first, zero := Draw(0, 0, true, true), Draw(1, 0, true, true);
    var a, b, c, d := Controller(1, 1), Controller(2, 1), Controller(0, 1), Controller(4, 1);
    var r0, r1 := Roster([], [], 0, 0, 0), Roster([a], [], 1, 1, 0);
    var r2, r3 := Roster([a, b], [], 2, 2, 0), Roster([a, b, c], [], 3, 3, 0);
    AddSession(l, r0, first, 1);
    AddSession(l, r1, first, 2);
    AddSession(l, r2, zero, 0);
    AddSession(l, r3, first, 4);
    Activated(r0, a, r1);
    Activated(r1, b, r2);
    Activated(r2, c, r3);
    Activated(r3, d, Roster([a, b, c, d], [], 4, 4, 0));
    TryFour(l, r0, first, first, zero, first);
    assert IdsOf([a, b, c, d]) == [1, 2, 0, 4];
  }

  lemma Activated(r: Roster, c: Controller, r': Roster)
    requires r' == Roster(r.active + [c], r.idle, r.numUsers + 1, r.added + 1, r.removed)
    ensures Activate(r, c) == r'
  {
  }

  // ----- the creations of a load-test -----

  /** The draw, if adding a user with it makes a controller. */
  function MadeOne(l: Limits, r: Roster, d: Draw): seq<Draw> {
    if |r.active| != l.max && r.idle == [] && d.creates && d.rates then [d] else []
  }

  function MadeMany(l: Limits, epoch: nat, r: Roster, draws: seq<Draw>): seq<Draw>
    requires l.avgSessions > 0
    decreases |draws|
  {
    if draws == [] then []
    else
      var (r', e) := AddOne(l, epoch, r, draws[0]);
      MadeOne(l, r, draws[0]) + if e.Some? then [] else MadeMany(l, epoch, r', draws[1..])
  }

  function MadeTrying(l: Limits, epoch: nat, r: Roster, draws: seq<Draw>): seq<Draw>
    requires l.avgSessions > 0
    decreases |draws|
  {
    if draws == [] then []
    else MadeOne(l, r, draws[0]) + MadeTrying(l, epoch, AddOne(l, epoch, r, draws[0]).0, draws[1..])
  }

  function MadeBy(l: Limits, t: Tester, c: Call): seq<Draw>
    requires l.avgSessions > 0
  {
    match c
    case RunCall(draws) =>
      if t.state != State.Stopped then []
      else MadeTrying(l, t.epoch + 1, Roster([], t.users.idle, 0, 0, 0), draws)
    case AddCall(n, draws) =>
      if n <= 0 || t.state != Running then [] else MadeMany(l, t.epoch, t.users, draws)
    case _ => []
  }

  /** All draws that made a controller, in order. */
  function MadeByAll(l: Limits, calls: seq<Call>): seq<Draw>
    requires l.avgSessions > 0
  {
    if calls == [] then []
    else
      var before := calls[..|calls| - 1];
      MadeByAll(l, before) + MadeBy(l, DoAll(l, before), calls[|calls| - 1])
  }

  /** The controllers there are, active or idle, are those that were made. */
  ghost predicate Holds(l: Limits, r: Roster, made: seq<Draw>)
    requires l.avgSessions > 0
  {
    Ids(r) == multiset(Given(l.avgSessions, made)) && |r.active| + |r.idle| == |made|
  }

  lemma GivenGrows(avgSessions: nat, made: seq<Draw>, d: Draw)
    requires avgSessions > 0
    ensures multiset(Given(avgSessions, made + [d]))
            == multiset(Given(avgSessions, made)) + multiset{UserId(|made|, avgSessions, d)}
  {
    assert Given(avgSessions, made + [d]) == Given(avgSessions, made) + [UserId(|made|, avgSessions, d)];
  }

  lemma AddOneHolds(l: Limits, epoch: nat, r: Roster, d: Draw, made: seq<Draw>)
    requires l.avgSessions > 0 && Holds(l, r, made) && d.rates
    ensures Holds(l, AddOne(l, epoch, r, d).0, made + MadeOne(l, r, d))
  {
    hide Ids, UserId, Activate;
    if |r.active| != l.max {
      if r.idle != [] {
        FirstIdleIds(r);
        ActivateIds(r.(idle := r.idle[1..]), r.idle[0]);
        ActivateCounts(r.(idle := r.idle[1..]), r.idle[0]);
      } else if d.creates {
        var c := Controller(UserId(|r.active|, l.avgSessions, d), epoch);
        ActivateIds(r, c);
        ActivateCounts(r, c);
        GivenGrows(l.avgSessions, made, d);
      }
    }
    assert made + [] == made;
  }

  lemma {:induction false} AddManyHolds(l: Limits, epoch: nat, r: Roster, draws: seq<Draw>, made: seq<Draw>)
    requires l.avgSessions > 0 && Holds(l, r, made) && RatesAccepted(draws)
    ensures Holds(l, AddMany(l, epoch, r, draws).0, made + MadeMany(l, epoch, r, draws))
    decreases |draws|
  {
    hide Holds, AddOne, MadeOne;
    assert made + [] == made;
    if draws != [] {
      var r', e := AddOne(l, epoch, r, draws[0]).0, AddOne(l, epoch, r, draws[0]).1;
      var first := MadeOne(l, r, draws[0]);
      AddOneHolds(l, epoch, r, draws[0], made);
      if e.None? {
        AddManyHolds(l, epoch, r', draws[1..], made + first);
        assert made + first + MadeMany(l, epoch, r', draws[1..]) == made + (first + MadeMany(l, epoch, r', draws[1..]));
      } else {
        assert first + [] == first;
      }
    }
  }

  lemma {:induction false} TryAllHolds(l: Limits, epoch: nat, r: Roster, draws: seq<Draw>, made: seq<Draw>)
    requires l.avgSessions > 0 && Holds(l, r, made) && RatesAccepted(draws)
    ensures Holds(l, TryAll(l, epoch, r, draws), made + MadeTrying(l, epoch, r, draws))
    decreases |draws|
  {
    hide Holds, AddOne, MadeOne;
    assert made + [] == made;
    if draws != [] {
      var r', first := AddOne(l, epoch, r, draws[0]).0, MadeOne(l, r, draws[0]);
      AddOneHolds(l, epoch, r, draws[0], made);
      TryAllHolds(l, epoch, r', draws[1..], made + first);
      assert made + first + MadeTrying(l, epoch, r', draws[1..])
          == made + (first + MadeTrying(l, epoch, r', draws[1..]));
    }
  }

  lemma RemoveHolds(l: Limits, r: Roster, n: nat, made: seq<Draw>)
    requires l.avgSessions > 0 && Holds(l, r, made) && Conserved(l.max, r)
    ensures Holds(l, RemoveMany(r, n).0, made)
  {
    hide Ids, RemoveMany;
    RemoveManyKeepsIds(r, n);
    RemoveManyConserves(l.max, r, n);
  }

  lemma DoHolds(l: Limits, t: Tester, c: Call, made: seq<Draw>)
    requires l.avgSessions > 0 && Between(l, t) && Holds(l, t.users, made) && CallRates(c)
    ensures Holds(l, Do(l, t, c).users, made + MadeBy(l, t, c))
  {
    hide Conserved, AddMany, TryAll, RemoveMany, RatesAccepted, Ids;
    assert made + [] == made;
    match c {
      case RunCall(draws) =>
        if t.state == State.Stopped {
          var idle := Roster([], t.users.idle, 0, 0, 0);
          SameIds(t.users, idle);
          TryAllHolds(l, t.epoch + 1, idle, draws, made);
        }
      case AddCall(n, draws) =>
        AddManyHolds(l, t.epoch, t.users, draws, made);
      case RemoveCall(n) =>
        if n > 0 {
          RemoveHolds(l, t.users, n, made);
        }
      case StopCall =>
        RemoveHolds(l, t.users, |t.users.active|, made);
    }
  }

  lemma SameIds(r: Roster, r': Roster)
    requires r'.active == r.active && r'.idle == r.idle
    ensures Ids(r') == Ids(r)
  {
  }

  lemma {:induction false} CallsHold(l: Limits, calls: seq<Call>)
    requires l.avgSessions > 0 && forall i | 0 <= i < |calls| :: CallRates(calls[i])
    ensures Holds(l, DoAll(l, calls).users, MadeByAll(l, calls))
  {
    hide Do, Holds, CallRates, MadeBy;
    if calls == [] {
      NobodyHeld(l);
    } else {
      var before := calls[..|calls| - 1];
      CallsHold(l, before);
      LifecycleConserved(l, before);
      DoHolds(l, DoAll(l, before), calls[|calls| - 1], MadeByAll(l, before));
    }
  }

  lemma NobodyHeld(l: Limits)
    requires l.avgSessions > 0
    ensures Holds(l, Roster([], [], 0, 0, 0), [])
  {
    assert IdsOf([]) == [] && Given(l.avgSessions, []) == [];
  }

  /** After any public calls with rates that are accepted: every further session has been given an id in use if
      and only if each drew the number of a creation that was not itself a further session, and then the ids of
      all controllers are exactly the numbers of those creations. */
  lemma CallsReuseExactly(l: Limits, calls: seq<Call>)
    requires l.avgSessions > 0 && forall i | 0 <= i < |calls| :: CallRates(calls[i])
    ensures var made, ids := MadeByAll(l, calls), Ids(DoAll(l, calls).users);
            && ids == multiset(Given(l.avgSessions, made))
            && (AllInUse(l.avgSessions, made) <==> AllHit(l.avgSessions, made))
            && (AllHit(l.avgSessions, made) ==> FreshOnly(l.avgSessions, made))
  {
    hide DoAll, MadeByAll, AllInUse, AllHit, FreshOnly, CallRates;
    CallsHold(l, calls);
    ReusesExactly(l.avgSessions, MadeByAll(l, calls));
  }
}
