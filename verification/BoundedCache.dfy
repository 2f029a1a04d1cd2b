/** The four caches of loadtest/store/memstore/store.go: a map of pointers into the slots of a
    circular queue, kept consistent by evicting the entry of a recycled slot just before the slot
    is overwritten in place. */
module BoundedCaches {
  import opened Wrappers
  import opened CacheHistory
  import opened CircularQueue

  /** The slot that holds write number t after w writes, when the next one goes to slot `next`. */
  function SlotOf(t: int, w: int, next: int, size: int): int {
    var d := t - (w - next);
    if d >= 0 then d else d + size
  }

  /** Where the queue stands after w writes: still filling, or full. */
  ghost predicate Position(len: nat, w: nat, next: nat, size: nat) {
    next < size && next <= len <= size && if w < size then next == w else len == size
  }

  /** Every write of the current window is still in its slot. Slots outside the window hold
      whatever an earlier use left there. */
  ghost predicate WindowHeld<T>(vals: seq<T>, next: nat, size: nat, writes: seq<T>) {
    forall t: nat | |writes| - size <= t < |writes| ::
      && 0 <= SlotOf(t, |writes|, next, size) < |vals|
      && writes[t] == vals[SlotOf(t, |writes|, next, size)]
  }

  /** find[k] is the cell of the write k is live for. */
  ghost predicate EntryHeld<K, V>(data: seq<Slot?<Record<K, V>>>, next: nat, size: nat, ring: Ring<K, V>,
                                  k: K, cell: Slot<Record<K, V>>)
    requires k in ring.live
  {
    var j := SlotOf(ring.live[k], |ring.writes|, next, size);
    && |ring.writes| - size <= ring.live[k] < |ring.writes|
    && 0 <= j < |data|
    && data[j] == cell
  }

  /** Each entry points to the slot of the write it is live for. */
  ghost predicate EntriesHeld<K, V>(data: seq<Slot?<Record<K, V>>>, next: nat, size: nat, ring: Ring<K, V>,
                                    find: map<K, Slot<Record<K, V>>>)
  {
    && find.Keys == ring.live.Keys
    && forall k | k in find :: EntryHeld(data, next, size, ring, k, find[k])
  }

  ghost predicate Coupled<K, V>(data: seq<Slot?<Record<K, V>>>, vals: seq<Record<K, V>>, next: nat, size: nat,
                                ring: Ring<K, V>, find: map<K, Slot<Record<K, V>>>)
  {
    && |vals| == |data|
    && Position(|data|, |ring.writes|, next, size)
    && WellFormed(ring, size)
    && WindowHeld(vals, next, size, ring.writes)
    && EntriesHeld(data, next, size, ring, find)
  }

  /** The entries once the slot el, still holding a value of key `stale`, is taken for a new write. */
  function Evict<K, T>(find: map<K, Slot<T>>, el: Slot<T>, stale: K): map<K, Slot<T>> {
    if stale in find && find[stale] == el then find - {stale} else find
  }

  lemma SlotsAfterWrite(w: nat, next: nat, size: nat, len: nat)
    requires Position(len, w, next, size)
    ensures Position(if next == len then len + 1 else len, w + 1, Wrap(next, size), size)
    ensures SlotOf(w, w + 1, Wrap(next, size), size) == next
    ensures forall t: nat | w + 1 - size <= t < w ::
              SlotOf(t, w + 1, Wrap(next, size), size) == SlotOf(t, w, next, size) != next
  {
  }

  lemma WindowAfterWrite<T>(vals: seq<T>, next: nat, size: nat, writes: seq<T>, v: T)
    requires Position(|vals|, |writes|, next, size)
    requires WindowHeld(vals, next, size, writes)
    ensures WindowHeld(PutAt(vals, next, v), Wrap(next, size), size, writes + [v])
  {
    SlotsAfterWrite(|writes|, next, size, |vals|);
  }

  /** Eviction by pointer comparison removes exactly the entry of the write that leaves the window. */
  lemma EvictionIsExact<K, V>(data: seq<Slot?<Record<K, V>>>, vals: seq<Record<K, V>>, next: nat, size: nat,
                              ring: Ring<K, V>, find: map<K, Slot<Record<K, V>>>, el: Slot<Record<K, V>>, stale: K)
    requires Coupled(data, vals, next, size, ring, find) && Placed(data)
    requires el.pos == next
    requires next < |data| ==> data[next] == el && vals[next].key == stale
    ensures Evict(find, el, stale) == Forget(find, ring, size)
  {
    var w := |ring.writes|;
    forall k | k in find
      ensures find[k] == el <==> ring.live[k] == w - size
      ensures find[k] == el ==> k == stale
    {
      var t := ring.live[k];
      assert ring.writes[t].key == k;
      assert find[k] == data[SlotOf(t, w, next, size)];
    }
  }

  lemma EntryAfterWrite<K, V>(data: seq<Slot?<Record<K, V>>>, next: nat, size: nat, ring: Ring<K, V>,
                              k: K, cell: Slot<Record<K, V>>, el: Slot<Record<K, V>>, r: Record<K, V>)
    requires Position(|data|, |ring.writes|, next, size)
    requires k in ring.live && EntryHeld(data, next, size, ring, k, cell)
    requires k != r.key && ring.live[k] != |ring.writes| - size
    ensures EntryHeld(PutAt(data, next, el), Wrap(next, size), size, Pushed(ring, size, r), k, cell)
  {
    SlotsAfterWrite(|ring.writes|, next, size, |data|);
    var t := ring.live[k];
    assert SlotOf(t, |ring.writes| + 1, Wrap(next, size), size) == SlotOf(t, |ring.writes|, next, size);
  }

  lemma NewEntryHeld<K, V>(data: seq<Slot?<Record<K, V>>>, next: nat, size: nat, ring: Ring<K, V>,
                           el: Slot<Record<K, V>>, r: Record<K, V>)
    requires Position(|data|, |ring.writes|, next, size)
    ensures Position(|PutAt(data, next, el)|, |Pushed(ring, size, r).writes|, Wrap(next, size), size)
    ensures EntryHeld(PutAt(data, next, el), Wrap(next, size), size, Pushed(ring, size, r), r.key, el)
  {
    SlotsAfterWrite(|ring.writes|, next, size, |data|);
  }

  lemma EntriesAfterWrite<K, V>(data: seq<Slot?<Record<K, V>>>, next: nat, size: nat, ring: Ring<K, V>,
                                find: map<K, Slot<Record<K, V>>>, el: Slot<Record<K, V>>, r: Record<K, V>)
    requires Position(|data|, |ring.writes|, next, size)
    requires EntriesHeld(data, next, size, ring, find)
    ensures EntriesHeld(PutAt(data, next, el), Wrap(next, size), size, Pushed(ring, size, r),
                        Forget(find, ring, size)[r.key := el])
  {
    NewEntryHeld(data, next, size, ring, el, r);
    var find' := Forget(find, ring, size)[r.key := el];
    forall k | k in find'
      ensures EntryHeld(PutAt(data, next, el), Wrap(next, size), size, Pushed(ring, size, r), k, find'[k])
    {
      if k != r.key {
        EntryAfterWrite(data, next, size, ring, k, find[k], el, r);
      }
    }
  }

  lemma WellFormedAfterWrite<K, V>(ring: Ring<K, V>, size: nat, r: Record<K, V>)
    requires 0 < size && WellFormed(ring, size)
    ensures WellFormed(Pushed(ring, size, r), size)
  {
  }

  /** Taking the next slot, evicting its entry and storing v there is one ring write. */
  lemma CoupledWrite<K, V>(data: seq<Slot?<Record<K, V>>>, vals: seq<Record<K, V>>, next: nat, size: nat,
                           ring: Ring<K, V>, find: map<K, Slot<Record<K, V>>>,
                           el: Slot<Record<K, V>>, stale: K, r: Record<K, V>)
    requires Coupled(data, vals, next, size, ring, find) && Placed(data)
    requires el.pos == next
    requires next < |data| ==> data[next] == el && vals[next].key == stale
    ensures |PutAt(data, next, el)| == |PutAt(vals, next, r)|
    ensures Coupled(PutAt(data, next, el), PutAt(vals, next, r), Wrap(next, size), size,
                    Pushed(ring, size, r), Evict(find, el, stale)[r.key := el])
  {
    WellFormedAfterWrite(ring, size, r);
    NewEntryHeld(data, next, size, ring, el, r);
    WindowAfterWrite(vals, next, size, ring.writes, r);
    EvictionIsExact(data, vals, next, size, ring, find, el, stale);
    EntriesAfterWrite(data, next, size, ring, find, el, r);
  }

  lemma CoupledDelete<K, V>(data: seq<Slot?<Record<K, V>>>, vals: seq<Record<K, V>>, next: nat, size: nat,
                            ring: Ring<K, V>, find: map<K, Slot<Record<K, V>>>, k: K)
    requires Coupled(data, vals, next, size, ring, find)
    ensures Coupled(data, vals, next, size, Apply(ring, size, Delete(k)), find - {k})
  {
  }

  /** After Clear the slots keep their old contents, and none of them is inside the window. */
  lemma CoupledClear<K, V>(data: seq<Slot?<Record<K, V>>>, vals: seq<Record<K, V>>, next: nat, size: nat,
                           ring: Ring<K, V>, find: map<K, Slot<Record<K, V>>>)
    requires Coupled(data, vals, next, size, ring, find)
    ensures Coupled(data, vals, 0, size, Apply(ring, size, Clear), map[])
  {
  }

  /** A cell found under k holds what the history promises for k, and its identity fields are k. */
  lemma FoundIsPromised<K, V>(data: seq<Slot?<Record<K, V>>>, vals: seq<Record<K, V>>, next: nat, size: nat,
                              log: History<K, V>, find: map<K, Slot<Record<K, V>>>, k: K)
    requires Coupled(data, vals, next, size, Replay(log, size), find)
    ensures k in find ==> exists j :: 0 <= j < |data| && find[k] == data[j]
                                     && vals[j].key == k && Stored(log, size, k) == Some(vals[j])
    ensures k !in find ==> Stored(log, size, k) == None
  {
    RingKeepsPromise(log, size, size, k);
    var ring := Replay(log, size);
    if k in find {
      assert EntryHeld(data, next, size, ring, k, find[k]);
      var t := ring.live[k];
      assert ring.writes[t] == vals[SlotOf(t, |ring.writes|, next, size)];
    }
  }

  /** One cache with a one-level map: posts, users and statuses. */
  class BoundedCache<K(==), V> {
    var entries: map<K, Slot<Record<K, V>>>
    const queue: CQueue<Record<K, V>>
    ghost var log: History<K, V>        // every operation so far

    ghost predicate Valid()
      reads this, queue, queue.Repr
    {
      && queue.Valid()
      && this !in queue.Repr
      && Coupled(queue.data, queue.vals, queue.next, queue.size, Replay(log, queue.size), entries)
    }

    ghost function Footprint(): set<object>
      reads this, queue
    {
      {this} + queue.Repr
    }

    constructor (queue: CQueue<Record<K, V>>)
      requires queue.Valid() && queue.data == [] && queue.next == 0
      ensures Valid() && log == [] && this.queue == queue && Footprint() == {this} + queue.Repr
    {
      entries := map[];
      this.queue := queue;
      log := [];
    }

    /** Takes the next slot, evicts the entry that still points to it, overwrites it in place. */
    method Set(r: Record<K, V>)
      requires Valid()
      modifies this, queue.Repr
      ensures Valid() && fresh(queue.Repr - old(queue.Repr))
      ensures log == old(log) + [Write(r.key, r.rest)]
    {
      hide Coupled, Evict, Pushed, PutAt, Replay;
      ghost var data, vals, next, ring, find := queue.data, queue.vals, queue.next, Replay(log, queue.size), entries;
      var el := queue.Get();
      ghost var stale := el.v;
      EvictRecycled(el);
      queue.Overwrite(el, r);
      entries := entries[r.key := el];
      ReplayWrite(log, queue.size, r);
      log := log + [Write(r.key, r.rest)];
      PutTwice(vals, next, stale, r);
      CoupledWrite(data, vals, next, queue.size, ring, find, el, stale.key, r);
    }

    /** Removes the entry of the recycled cell's old key if it still points to that cell. */
    method EvictRecycled(el: Slot<Record<K, V>>)
      modifies this`entries
      ensures entries == Evict(old(entries), el, el.v.key)
    {
      if el.v.key in entries && entries[el.v.key] == el {
        entries := entries - {el.v.key};
      }
    }

    /** delete: the slot keeps its contents but nothing points to it any more. */
    method Delete(k: K)
      requires Valid()
      modifies this
      ensures Valid() && log == old(log) + [Op.Delete(k)]
    {
      hide Coupled;
      CoupledDelete(queue.data, queue.vals, queue.next, queue.size, Replay(log, queue.size), entries, k);
      ReplayStep(log, queue.size, Op.Delete(k));
      entries := entries - {k};
      log := log + [Op.Delete(k)];
    }

    method Clear()
      requires Valid()
      modifies this, queue
      ensures Valid() && log == old(log) + [Op.Clear] && Footprint() == old(Footprint())
    {
      hide Coupled;
      CoupledClear(queue.data, queue.vals, queue.next, queue.size, Replay(log, queue.size), entries);
      ReplayStep(log, queue.size, Op.Clear);
      entries := map[];
      queue.Reset();
      log := log + [Op.Clear];
    }

    /** Reads through the pointer. What comes back is what the history promises, never the stale
        or recycled contents of a slot. */
    method Get(k: K) returns (r: Option<Record<K, V>>)
      requires Valid()
      ensures r == Stored(log, queue.size, k)
    {
      FoundIsPromised(queue.data, queue.vals, queue.next, queue.size, log, entries, k);
      if k in entries {
        return Some(entries[k].v);
      }
      return None;
    }

    /** Every entry's cell carries the entry's key, and there are at most `size` entries. */
    lemma KeysAndBound()
      requires Valid()
      ensures |entries| <= queue.size
      ensures forall k | k in entries :: entries[k] in queue.Repr && entries[k].v.key == k
      ensures forall k | k in entries :: Stored(log, queue.size, k) == Some(entries[k].v)
    {
      RingIsBounded(log, queue.size);
      assert |entries| == |entries.Keys| && |Replay(log, queue.size).live| == |Replay(log, queue.size).live.Keys|;
      forall k | k in entries
        ensures entries[k] in queue.Repr && entries[k].v.key == k
        ensures Stored(log, queue.size, k) == Some(entries[k].v)
      {
        FoundIsPromised(queue.data, queue.vals, queue.next, queue.size, log, entries, k);
      }
    }
  }

  /** flat lists the entries of the two-level map m, each under the pair of its keys. */
  ghost predicate Flattens<A(!new), B(!new), T>(m: map<A, map<B, T>>, flat: map<(A, B), T>) {
    && (forall p | p in flat :: p.0 in m && p.1 in m[p.0] && m[p.0][p.1] == flat[p])
    && (forall a, b | a in m && b in m[a] :: (a, b) in flat)
  }

  lemma FlattensOpen<A(!new), B(!new), T>(m: map<A, map<B, T>>, flat: map<(A, B), T>, a: A)
    requires Flattens(m, flat) && a !in m
    ensures Flattens(m[a := map[]], flat)
  {
  }

  /** Removes the inner entry of the recycled cell's old keys if it still points to that cell. */
  function EvictInner<A, B, T>(m: map<A, map<B, Slot<T>>>, el: Slot<T>, k: (A, B)): map<A, map<B, Slot<T>>> {
    if k.0 in m then
      if k.1 in m[k.0] && m[k.0][k.1] == el then m[k.0 := m[k.0] - {k.1}] else m
    else m
  }

  lemma FlattensEvict<A(!new), B(!new), T>(m: map<A, map<B, Slot<T>>>, flat: map<(A, B), Slot<T>>,
                                           el: Slot<T>, k: (A, B))
    requires Flattens(m, flat)
    ensures Flattens(EvictInner(m, el, k), Evict(flat, el, k))
    ensures EvictInner(m, el, k).Keys == m.Keys
  {
    if k.0 in m {
      FlattensRemove(m, flat, k);
    }
  }

  lemma FlattensPut<A(!new), B(!new), T>(m: map<A, map<B, T>>, flat: map<(A, B), T>, k: (A, B), x: T)
    requires Flattens(m, flat) && k.0 in m
    ensures Flattens(m[k.0 := m[k.0][k.1 := x]], flat[k := x])
  {
  }

  lemma FlattensRemove<A(!new), B(!new), T>(m: map<A, map<B, T>>, flat: map<(A, B), T>, k: (A, B))
    requires Flattens(m, flat) && k.0 in m
    ensures Flattens(m[k.0 := m[k.0] - {k.1}], flat - {k})
  {
  }

  /** The channel-member cache: the same queue behind a map of maps. Inner maps are created on the
      first write to a channel and stay when their last entry goes. */
  class MemberCache<A(==, !new), B(==, !new), V> {
    var entries: map<A, map<B, Slot<Record<(A, B), V>>>>
    const queue: CQueue<Record<(A, B), V>>
    ghost var log: History<(A, B), V>
    ghost var flat: map<(A, B), Slot<Record<(A, B), V>>>   // entries, as a one-level map

    ghost predicate Valid()
      reads this, queue, queue.Repr
    {
      && queue.Valid()
      && this !in queue.Repr
      && Coupled(queue.data, queue.vals, queue.next, queue.size, Replay(log, queue.size), flat)
      && Flattens(entries, flat)
    }

    ghost function Footprint(): set<object>
      reads this, queue
    {
      {this} + queue.Repr
    }

    constructor (queue: CQueue<Record<(A, B), V>>)
      requires queue.Valid() && queue.data == [] && queue.next == 0
      ensures Valid() && log == [] && this.queue == queue && Footprint() == {this} + queue.Repr
    {
      entries := map[];
      flat := map[];
      this.queue := queue;
      log := [];
    }

    method Set(r: Record<(A, B), V>)
      requires Valid()
      modifies this, queue.Repr
      ensures Valid() && fresh(queue.Repr - old(queue.Repr))
      ensures log == old(log) + [Write(r.key, r.rest)]
    {
      hide Coupled;
      hide Flattens;
      hide Evict;
      hide Pushed;
      hide PutAt;
      hide Replay;
      ghost var data, vals, next, ring, find := queue.data, queue.vals, queue.next, Replay(log, queue.size), flat;
      var el := Recycle(r.key.0);
      ghost var stale := el.v;
      queue.Overwrite(el, r);
      FlattensPut(entries, flat, r.key, el);
      entries := entries[r.key.0 := entries[r.key.0][r.key.1 := el]];
      flat := flat[r.key := el];
      ReplayWrite(log, queue.size, r);
      log := log + [Write(r.key, r.rest)];
      PutTwice(vals, next, stale, r);
      CoupledWrite(data, vals, next, queue.size, ring, find, el, stale.key, r);
    }

    /** Makes sure the channel has an inner map, takes the next cell and evicts the entry that still
        points to it. */
    method Recycle(a: A) returns (el: Slot<Record<(A, B), V>>)
      requires queue.Valid() && this !in queue.Repr && Flattens(entries, flat)
      modifies this`entries, this`flat, queue
      ensures queue.Valid() && queue.Repr == old(queue.Repr) + {el} && (el in old(queue.Repr) || fresh(el))
      ensures el.pos == old(queue.next) < |queue.data| && queue.data[el.pos] == el
      ensures queue.next == Wrap(old(queue.next), queue.size)
      ensures queue.data == PutAt(old(queue.data), old(queue.next), el)
      ensures queue.vals == PutAt(old(queue.vals), old(queue.next), el.v)
      ensures old(queue.next) < |old(queue.data)| ==>
                old(queue.data)[old(queue.next)] == el && old(queue.vals)[old(queue.next)] == el.v
      ensures Flattens(entries, flat) && a in entries
      ensures flat == Evict(old(flat), el, el.v.key)
    {
      hide Flattens;
      if a !in entries {
        FlattensOpen(entries, flat, a);
        entries := entries[a := map[]];
      }
      el := queue.Get();
      FlattensEvict(entries, flat, el, el.v.key);
      entries, flat := EvictInner(entries, el, el.v.key), Evict(flat, el, el.v.key);
    }

    method Delete(k: (A, B))
      requires Valid()
      modifies this
      ensures Valid() && log == old(log) + [Op.Delete(k)]
    {
      hide Coupled;
      CoupledDelete(queue.data, queue.vals, queue.next, queue.size, Replay(log, queue.size), flat, k);
      ReplayStep(log, queue.size, Op.Delete(k));
      if k.0 in entries {
        FlattensRemove(entries, flat, k);
        entries := entries[k.0 := entries[k.0] - {k.1}];
      }
      flat := flat - {k};
      log := log + [Op.Delete(k)];
    }

    method Clear()
      requires Valid()
      modifies this, queue
      ensures Valid() && log == old(log) + [Op.Clear] && Footprint() == old(Footprint())
    {
      hide Coupled;
      CoupledClear(queue.data, queue.vals, queue.next, queue.size, Replay(log, queue.size), flat);
      ReplayStep(log, queue.size, Op.Clear);
      entries := map[];
      flat := map[];
      queue.Reset();
      log := log + [Op.Clear];
    }

    method Get(k: (A, B)) returns (r: Option<Record<(A, B), V>>)
      requires Valid()
      ensures r == Stored(log, queue.size, k)
    {
      FoundIsPromised(queue.data, queue.vals, queue.next, queue.size, log, flat, k);
      if k.0 in entries && k.1 in entries[k.0] {
        assert (k.0, k.1) == k;
        return Some(entries[k.0][k.1].v);
      }
      return None;
    }

    /** All inner maps together hold at most `size` entries, each in a cell that carries its keys. */
    lemma KeysAndBound()
      requires Valid()
      ensures Flattens(entries, flat) && |flat| <= queue.size
      ensures forall k | k in flat :: flat[k] in queue.Repr && flat[k].v.key == k
    {
      RingIsBounded(log, queue.size);
      assert |flat| == |flat.Keys| && |Replay(log, queue.size).live| == |Replay(log, queue.size).live.Keys|;
      forall k | k in flat ensures flat[k] in queue.Repr && flat[k].v.key == k {
        FoundIsPromised(queue.data, queue.vals, queue.next, queue.size, log, flat, k);
      }
    }
  }
}
