/** loadtest/store/memstore/cqueue.go: a circular queue that grows to its size and then hands the
    same elements out again, oldest first. */
module CircularQueue {
  import opened Wrappers

  /** A heap cell the queue allocates and its users overwrite in place. */
  class Slot<V> {
    ghost const pos: nat // its index in the queue, which never changes
    var v: V

    constructor (v: V, ghost pos: nat)
      ensures this.v == v && this.pos == pos
    {
      this.v := v;
      this.pos := pos;
    }
  }

  datatype QueueError = SizeNotPositive | NoFactory

  /** Every element sits at the index it was allocated for, so no two elements are the same cell. */
  ghost predicate Placed<V>(data: seq<Slot?<V>>) {
    forall i | 0 <= i < |data| :: data[i] != null && data[i].pos == i
  }

  /** The index after i in a queue of the given size. */
  function Wrap(i: nat, size: nat): nat {
    if i + 1 == size then 0 else i + 1
  }

  /** Slot `next` receives v: appended while the queue grows, overwritten once it is there. */
  function PutAt<T>(s: seq<T>, next: nat, v: T): seq<T>
    requires next <= |s|
  {
    if next == |s| then s + [v] else s[next := v]
  }

  lemma PutTwice<T>(s: seq<T>, next: nat, u: T, v: T)
    requires next <= |s|
    ensures PutAt(PutAt(s, next, u), next, v) == PutAt(s, next, v)
  {
  }

  class CQueue<V> {
    var data: seq<Slot?<V>>
    const newEl: V
    const size: nat
    var next: nat
    ghost var vals: seq<V> // what each element holds
    ghost var Repr: set<object>

    ghost predicate Valid()
      reads this, Repr
      ensures Valid() ==> this in Repr
    {
      && this in Repr
      && |vals| == |data| <= size
      && next < size
      && next <= |data|
      && Placed(data)
      && forall i | 0 <= i < |data| :: data[i] in Repr && data[i].v == vals[i]
    }

    constructor (size: nat, newEl: V)
      requires 0 < size
      ensures Valid() && Repr == {this} && data == [] && next == 0
      ensures this.size == size && this.newEl == newEl
    {
      data := [];
      vals := [];
      this.newEl := newEl;
      this.size := size;
      next := 0;
      Repr := {this};
    }

    /** The element to overwrite next: allocated by this call while the queue still grows, the
        one handed out `size` calls ago once it is full. */
    method Get() returns (el: Slot<V>)
      requires Valid()
      modifies this
      ensures Valid() && Repr == old(Repr) + {el}
      ensures el.pos == old(next) < |data| && data[el.pos] == el
      ensures next == Wrap(old(next), size)
      ensures data == PutAt(old(data), old(next), el)
      ensures vals == PutAt(old(vals), old(next), el.v)
      ensures if old(next) == old(|data|)
              then fresh(el) && el.v == newEl
              else old(data)[old(next)] == el && el.v == old(vals)[old(next)]
    {
      if next == |data| {
        data := data + [null];
      }
      if data[next] == null {
        var slot := new Slot(newEl, next);
        data := data[next := slot];
        vals := vals + [newEl];
      }
      el := data[next];
      Repr := Repr + {el};
      next := next + 1;
      if next == size {
        next := 0;
      }
    }

    /** A user of the queue overwrites one of its elements in place; no other element changes. */
    method Overwrite(el: Slot<V>, v: V)
      requires Valid()
      requires el.pos < |data| && data[el.pos] == el
      modifies this`vals, el
      ensures Valid() && vals == PutAt(old(vals), el.pos, v)
    {
      el.v := v;
      vals := vals[el.pos := v];
    }

    /** Rewinds the queue. The elements stay where they are and keep their stale contents. */
    method Reset()
      requires Valid()
      modifies this
      ensures Valid() && next == 0 && data == old(data) && vals == old(vals) && Repr == old(Repr)
    {
      next := 0;
    }
  }

  /** NewCQueue: the two argument checks, then an empty queue. */
  method NewCQueue<V>(size: int, newEl: Option<V>) returns (r: Result<CQueue<V>, QueueError>)
    ensures r.Ok? <==> size > 0 && newEl.Some?
    ensures r.Ok? ==> fresh(r.value) && r.value.Valid() && r.value.Repr == {r.value}
    ensures r.Ok? ==> r.value.data == [] && r.value.next == 0
    ensures r.Ok? ==> r.value.size == size && r.value.newEl == newEl.value
    ensures size <= 0 ==> r == Err(SizeNotPositive)
    ensures size > 0 && newEl.None? ==> r == Err(NoFactory)
  {
    if size <= 0 {
      return Err(SizeNotPositive);
    }
    if newEl.None? {
      return Err(NoFactory);
    }
    var q := new CQueue(size, newEl.value);
    return Ok(q);
  }
}
