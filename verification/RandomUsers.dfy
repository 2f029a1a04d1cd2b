/** loadtest/store/memstore/random.go: picking n distinct users other than the current one by
    drawing random keys until enough have been seen. The draws are an argument. */
module RandomSelection {
  import opened Wrappers
  import opened CacheHistory
  import opened BoundedCaches
  import opened MemStores

  datatype Outcome =
    | Picked(users: seq<User>)
    | LenMismatch             // not enough users to ever succeed
    | InvalidData             // a stored user without id was drawn
    | Spinning(users: seq<User>) // the draws ran out while the loop was still retrying

  function Ids(users: seq<User>): set<string> {
    set i | 0 <= i < |users| :: users[i].key
  }

  ghost predicate DistinctIds(users: seq<User>) {
    forall i, j | 0 <= i < j < |users| :: users[i].key != users[j].key
  }

  lemma {:induction false} DistinctIdsCount(users: seq<User>)
    requires DistinctIds(users)
    ensures |Ids(users)| == |users|
  {
    if users != [] {
      var init, last := users[..|users| - 1], users[|users| - 1];
      DistinctIdsCount(init);
      assert Ids(users) == Ids(init) + {last.key};
      assert last.key !in Ids(init);
    }
  }

  /** While fewer users are picked than can be, some stored user is still to be found. */
  lemma SomeoneLeft(keys: set<string>, self: string, picked: seq<User>)
    requires DistinctIds(picked) && |picked| < |keys - {self}|
    ensures exists k :: k in keys && k != self && k !in Ids(picked)
  {
    DistinctIdsCount(picked);
    if forall k | k in keys && k != self :: k in Ids(picked) {
      SubsetSize(keys - {self}, Ids(picked));
    }
  }

  lemma SubsetSize<T>(a: set<T>, b: set<T>)
    requires a <= b
    ensures |a| <= |b|
  {
    assert b == a + (b - a);
  }

  lemma IdsAppend(users: seq<User>, u: User)
    ensures Ids(users + [u]) == Ids(users) + {u.key}
  {
    assert (users + [u])[|users|] == u;
    forall i | 0 <= i < |users| ensures users[i].key in Ids(users + [u]) {
      assert (users + [u])[i] == users[i];
    }
  }

  /** The keys a call may return: everything stored but the current user. */
  function Candidates(stored: map<string, User>, self: string): set<string> {
    stored.Keys - {self}
  }

  /** Those of them that a call can return: a stored user without id is an error once it is drawn. */
  function Servable(stored: map<string, User>, self: string): set<string> {
    Candidates(stored, self) - {""}
  }

  /** No draw is the user without id, and every user that can be returned is drawn. */
  ghost predicate Serves(stored: map<string, User>, self: string, draws: seq<string>) {
    "" !in draws && forall k | k in Servable(stored, self) :: k in draws
  }

  /** Whether the length guard lets exactly those n through that some draws can satisfy: not where a user
      without id is stored, is not the current one, and every candidate is asked for. */
  lemma GuardIsExact(stored: map<string, User>, self: string, n: nat)
    ensures |Servable(stored, self)| <= |Candidates(stored, self)|
    ensures (n <= |Candidates(stored, self)| <==> n <= |Servable(stored, self)|)
            <==> "" !in stored || self == "" || n != |Candidates(stored, self)|
  {
    var all, some := Candidates(stored, self), Servable(stored, self);
    if "" in all {
      assert all == some + {""};
    } else {
      assert all == some;
    }
  }

  lemma ToServable(stored: map<string, User>, self: string, k: string)
    requires k in stored && k != self && k != ""
    ensures k in Servable(stored, self)
  {
  }

  lemma ServableBound(stored: map<string, User>, self: string, picked: seq<User>)
    requires DistinctIds(picked) && Ids(picked) <= Servable(stored, self)
    ensures |picked| <= |Servable(stored, self)|
    ensures Ids(picked) <= Candidates(stored, self)
  {
    DistinctIdsCount(picked);
    SubsetSize(Ids(picked), Servable(stored, self));
  }

  lemma SomeoneUndrawn(stored: map<string, User>, self: string, picked: seq<User>, draws: seq<string>)
    requires DistinctIds(picked) && |picked| < |Servable(stored, self)|
    requires forall d | d in draws :: d == self || d in Ids(picked)
    ensures exists k :: k in Servable(stored, self) && k !in draws
  {
    assert Servable(stored, self) == stored.Keys - {""} - {self};
    SomeoneLeft(stored.Keys - {""}, self, picked);
  }

  /** The draws end while more users can be picked: some that could be returned are still to be drawn. */
  lemma RanOut(stored: map<string, User>, self: string, n: nat, draws: seq<string>, picked: seq<User>)
    requires DistinctIds(picked) && |picked| < n <= |Candidates(stored, self)|
    requires forall d | d in draws :: d == self || d in Ids(picked)
    ensures exists k :: k in Candidates(stored, self) && k !in Ids(picked) && k in stored && k !in draws
    ensures n <= |Servable(stored, self)| ==> !Serves(stored, self, draws)
  {
    hide DistinctIds, Ids;
    SomeoneLeft(stored.Keys, self, picked);
    if n <= |Servable(stored, self)| {
      SomeoneUndrawn(stored, self, picked, draws);
    }
  }

  lemma NumberOfCandidates(stored: map<string, User>, self: string)
    ensures |Candidates(stored, self)| == |stored| - if self in stored then 1 else 0
  {
    assert |stored| == |stored.Keys|;
    if self !in stored {
      assert Candidates(stored, self) == stored.Keys;
    }
  }

  /** A single candidate, who has no id: the guard lets one user be asked for. */
  lemma GuardTooWide()
    ensures var stored: map<string, User> := map["" := NO_USER];
            KeyedById(stored) && 1 <= |Candidates(stored, "me")| && |Servable(stored, "me")| < 1
  {
    var stored: map<string, User> := map["" := NO_USER];
    assert Candidates(stored, "me") == {""};
    assert Servable(stored, "me") == {};
  }

  /** What the store guarantees about its map of users. */
  ghost predicate KeyedById(stored: map<string, User>) {
    forall k | k in stored :: stored[k].key == k
  }

  /** The retry loop, over the users stored when the lock is taken. */
  method SelectUsers(stored: map<string, User>, self: string, n: nat, draws: seq<string>) returns (r: Outcome)
    requires KeyedById(stored)
    requires forall d | d in draws :: d in stored
    ensures r.LenMismatch? <==> n > |Candidates(stored, self)|
    ensures r.Picked? ==> |r.users| == n && DistinctIds(r.users) && Ids(r.users) <= Candidates(stored, self)
    ensures r.Picked? ==> forall u | u in r.users :: u.key != "" && u.key in stored && stored[u.key] == u
    // What no draws can satisfy never succeeds, and draws that serve always satisfy the rest.
    ensures r.Picked? ==> n <= |Servable(stored, self)|
    ensures n <= |Servable(stored, self)| && Serves(stored, self, draws) ==> r.Picked?
    ensures r.InvalidData? ==> "" in draws
    // A retry is never futile, and draws that cover the stored keys always finish.
    ensures r.Spinning? ==> exists k :: k in Candidates(stored, self) && k !in Ids(r.users)
    ensures r.Spinning? ==> exists k :: k in stored && k !in draws
  {
    hide Servable, Candidates;
    NumberOfCandidates(stored, self);
    var numUsers := |stored|;
    if self in stored {
      numUsers := numUsers - 1;
    }
    if n > numUsers {
      GuardIsExact(stored, self, n);
      return LenMismatch;
    }
    var picked: seq<User> := [];
    var i := 0;
    while |picked| < n
      invariant 0 <= i <= |draws|
      invariant |picked| <= n && DistinctIds(picked)
      invariant forall u | u in picked :: u.key != "" && u.key in stored && u.key != self && stored[u.key] == u
      invariant Ids(picked) <= Servable(stored, self)
      invariant forall j | 0 <= j < i :: draws[j] == self || draws[j] in Ids(picked)
      decreases |draws| - i
    {
      if i == |draws| {
        RanOut(stored, self, n, draws, picked);
        return Spinning(picked);
      }
      var user := stored[draws[i]];
      i := i + 1;
      if user.key == "" {
        return InvalidData;
      }
      if user.key == self {
        continue; // we don't pick ourselves
      }
      if exists k :: 0 <= k < |picked| && picked[k].key == user.key {
        continue;
      }
      ToServable(stored, self, user.key);
      IdsAppend(picked, user);
      picked := picked + [user];
    }
    ServableBound(stored, self, picked);
    return Picked(picked);
  }

  /** RandomUsers on a store: what comes back is what the history of SetUsers and Clear promises. */
  method RandomUsers(s: MemStore, n: nat, draws: seq<string>) returns (r: Outcome)
    requires s.Valid()
    requires forall d | d in draws :: d in s.users.entries
    ensures r.LenMismatch? <==> n > |s.users.entries.Keys - {s.userId}|
    ensures r.Picked? ==> |r.users| == n && DistinctIds(r.users)
    ensures r.Picked? ==> forall u | u in r.users ::
                            u.key != s.userId && Stored(s.users.log, s.users.queue.size, u.key) == Some(u)
    ensures r.Picked? ==> n <= |s.users.entries.Keys - {s.userId} - {""}|
    ensures (&& n <= |s.users.entries.Keys - {s.userId} - {""}| && "" !in draws
             && forall k | k in s.users.entries.Keys - {s.userId} - {""} :: k in draws) ==> r.Picked?
    ensures r.InvalidData? ==> "" in draws && Stored(s.users.log, s.users.queue.size, "").Some?
    ensures r.Spinning? ==> exists k :: k in s.users.entries && k !in draws
  {
    hide Coupled;
    hide Flattens;
    s.users.KeysAndBound();
    var stored := map k | k in s.users.entries :: s.users.entries[k].v;
    assert stored.Keys == s.users.entries.Keys;
    r := SelectUsers(stored, s.userId, n, draws);
    if r.Picked? {
      forall u | u in r.users ensures u.key in stored && u.key != s.userId && stored[u.key] == u {
        var i :| 0 <= i < |r.users| && r.users[i] == u;
        assert r.users[i].key in Ids(r.users);
      }
    }
  }
}
