/** What a bounded cache of capacity n promises, as a function of the operations applied to it.

    `Lookup` is the promise: it knows nothing of slots, queues or pointers.
    `Ring` is the bookkeeping that a recycled ring of n slots performs, one write per slot.
    `RingKeepsPromise` says that the two agree after every run of operations. */
module CacheHistory {
  import opened Wrappers

  /** A stored struct: the fields that identify it, and all its other fields. */
  datatype Record<K, V> = Record(key: K, rest: V)

  datatype Op<K, V> = Write(key: K, val: V) | Delete(key: K) | Clear

  type History<K, V> = seq<Op<K, V>>

  /** The value a reader of key k must see after h: the latest write of k, unless k was deleted
      after it, the cache was cleared after it, or n or more writes were accepted since. */
  function Lookup<K(==), V>(h: History<K, V>, n: nat, k: K): Option<V> {
    if h == [] || n == 0 then None
    else
      var before := h[..|h| - 1];
      match h[|h| - 1]
      case Clear => None
      case Delete(k') => if k' == k then None else Lookup(before, n, k)
      case Write(k', v) => if k' == k then Some(v) else Lookup(before, n - 1, k)
  }

  /** The struct a reader of key k must see. */
  function Stored<K(==), V>(h: History<K, V>, n: nat, k: K): Option<Record<K, V>> {
    match Lookup(h, n, k)
    case Some(v) => Some(Record(k, v))
    case None => None
  }

  function WriteCount<K, V>(h: History<K, V>): nat {
    if h == [] then 0
    else WriteCount(h[..|h| - 1]) + if h[|h| - 1].Write? then 1 else 0
  }

  /** h[i] wrote v under k, nothing after it touched k or cleared the cache, and it is among the
      last n writes. */
  ghost predicate SeenAt<K, V>(h: History<K, V>, n: nat, i: nat, k: K, v: V) {
    && i < |h|
    && h[i] == Write(k, v)
    && (forall j | i < j < |h| :: !h[j].Clear? && h[j].key != k)
    && WriteCount(h) - WriteCount(h[..i]) <= n
  }

  /** The recursive promise, read declaratively: k reads as v exactly when the latest write of k
      wrote v, was neither deleted nor cleared away, and is among the last n writes. */
  lemma LookupMeaning<K, V>(h: History<K, V>, n: nat, k: K, v: V)
    ensures Lookup(h, n, k) == Some(v) <==> exists i: nat :: SeenAt(h, n, i, k, v)
  {
    if Lookup(h, n, k) == Some(v) {
      var i := FoundWasWritten(h, n, k);
    }
    if i: nat :| SeenAt(h, n, i, k, v) {
      WrittenIsFound(h, n, i, k, v);
    }
  }

  lemma {:induction false} FoundWasWritten<K, V>(h: History<K, V>, n: nat, k: K) returns (i: nat)
    requires Lookup(h, n, k).Some?
    ensures SeenAt(h, n, i, k, Lookup(h, n, k).value)
  {
    var before, last := h[..|h| - 1], |h| - 1;
    if h[last].Write? && h[last].key == k {
      i := last;
    } else {
      i := FoundWasWritten(before, if h[last].Write? then n - 1 else n, k);
      assert before[..i] == h[..i];
    }
  }

  lemma {:induction false} WrittenIsFound<K, V>(h: History<K, V>, n: nat, i: nat, k: K, v: V)
    requires SeenAt(h, n, i, k, v)
    ensures Lookup(h, n, k) == Some(v)
  {
    WriteCountMonotone(h, i);
    var before, last := h[..|h| - 1], |h| - 1;
    if i < last {
      assert before[..i] == h[..i];
      WriteCountMonotone(before, i);
      WrittenIsFound(before, if h[last].Write? then n - 1 else n, i, k, v);
    }
  }

  lemma {:induction false} WriteCountMonotone<K, V>(h: History<K, V>, i: nat)
    requires i <= |h|
    ensures WriteCount(h[..i]) <= WriteCount(h)
    ensures i < |h| && h[i].Write? ==> WriteCount(h[..i]) < WriteCount(h)
  {
    if i == |h| {
      assert h[..i] == h;
    } else {
      var before := h[..|h| - 1];
      assert h[..i] == before[..i];
      WriteCountMonotone(before, i);
    }
  }

  /** The writes since the last clear, and for each key still mapped the position of its write. */
  datatype Ring<K, V> = Ring(writes: seq<Record<K, V>>, live: map<K, nat>)

  /** m without the key that is live for the write n writes back, if there is one. */
  ghost function Forget<K, V, T>(m: map<K, T>, r: Ring<K, V>, n: nat): map<K, T> {
    map x | x in m && (x in r.live ==> r.live[x] != |r.writes| - n) :: m[x]
  }

  /** One operation on a ring of n slots: the write numbered t recycles the slot of write t - n,
      and with it the entry that still refers to that write. */
  ghost function Apply<K, V>(r: Ring<K, V>, n: nat, op: Op<K, V>): Ring<K, V> {
    match op
    case Write(k, v) => Pushed(r, n, Record(k, v))
    case Delete(k) => r.(live := r.live - {k})
    case Clear => Ring([], map[])
  }

  ghost function Pushed<K, V>(r: Ring<K, V>, n: nat, w: Record<K, V>): Ring<K, V> {
    Ring(r.writes + [w], Forget<K, V, nat>(r.live, r, n)[w.key := |r.writes|])
  }

  ghost function Replay<K, V>(h: History<K, V>, n: nat): Ring<K, V> {
    if h == [] then Ring([], map[]) else Apply(Replay(h[..|h| - 1], n), n, h[|h| - 1])
  }

  lemma ReplayStep<K, V>(h: History<K, V>, n: nat, op: Op<K, V>)
    ensures Replay(h + [op], n) == Apply(Replay(h, n), n, op)
  {
    assert (h + [op])[..|h|] == h;
  }

  lemma ReplayWrite<K, V>(h: History<K, V>, n: nat, r: Record<K, V>)
    ensures Replay(h + [Write(r.key, r.rest)], n) == Pushed(Replay(h, n), n, r)
  {
    ReplayStep(h, n, Write(r.key, r.rest));
  }

  ghost predicate WellFormed<K, V>(r: Ring<K, V>, n: nat) {
    forall k | k in r.live ::
      && |r.writes| - n <= r.live[k] < |r.writes|
      && r.writes[r.live[k]].key == k
  }

  lemma {:induction false} ReplayWellFormed<K, V>(h: History<K, V>, n: nat)
    requires 0 < n
    ensures WellFormed(Replay(h, n), n)
  {
    if h != [] {
      ReplayWellFormed(h[..|h| - 1], n);
    }
  }

  ghost function Visible<K, V>(r: Ring<K, V>, m: nat, k: K): Option<V>
    requires forall x | x in r.live :: r.live[x] < |r.writes|
  {
    if k in r.live && |r.writes| - m <= r.live[k] then Some(r.writes[r.live[k]].rest) else None
  }

  /** After any history the ring's entries are exactly what the promise says, and even restricted
      to the last m <= n writes it answers as a cache of capacity m would. */
  lemma {:induction false} RingKeepsPromise<K, V>(h: History<K, V>, n: nat, m: nat, k: K)
    requires 0 < n && m <= n
    ensures WellFormed(Replay(h, n), n)
    ensures Visible(Replay(h, n), m, k) == Lookup(h, m, k)
  {
    ReplayWellFormed(h, n);
    if h != [] && m > 0 {
      var before := h[..|h| - 1];
      ReplayWellFormed(before, n);
      match h[|h| - 1] {
        case Clear =>
        case Delete(k') => RingKeepsPromise(before, n, m, k);
        case Write(k', v) => RingKeepsPromise(before, n, m - 1, k);
      }
    }
  }

  /** A ring of n slots never maps more than n keys. */
  lemma RingIsBounded<K, V>(h: History<K, V>, n: nat)
    requires 0 < n
    ensures |Replay(h, n).live| <= n
  {
    ReplayWellFormed(h, n);
    var r := Replay(h, n);
    InjectiveIntoWindow(r.live, |r.writes| - n, n);
  }

  lemma {:induction false} InjectiveIntoWindow<K>(m: map<K, nat>, lo: int, n: nat)
    requires forall k | k in m :: lo <= m[k] < lo + n
    requires forall j, k | j in m && k in m && m[j] == m[k] :: j == k
    ensures |m| <= n
    decreases n
  {
    if n == 0 {
      assert forall k :: k !in m;
      assert m == map[];
    } else if k :| k in m && m[k] == lo {
      var rest := m - {k};
      assert rest.Keys == m.Keys - {k};
      assert |m| == |m.Keys| && |rest| == |rest.Keys|;
      InjectiveIntoWindow(rest, lo + 1, n - 1);
    } else {
      InjectiveIntoWindow(m, lo + 1, n - 1);
    }
  }
}
