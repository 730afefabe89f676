/** The pool of reusable buffers (`src/vec_pool.rs`). */
module VecPools {
  import opened Arithmetic

  /** A growable vector; `id` tells its allocation from the others the pool has made. */
  datatype Buffer<+T> = Buffer(id: nat, items: seq<T>, capacity: nat)

  /** `free` is the deque of pooled vectors, `created` the number of allocations so far. */
  datatype Pool<+T> = Pool(free: seq<Buffer<T>>, created: nat, innerCapacity: nat)

  function Seeded<T>(amount: nat, innerCapacity: nat): Pool<T> {
    Pool(seq(amount, i requires 0 <= i < amount => Buffer(i, [], innerCapacity)), amount, innerCapacity)
  }

  /** `take_vec`: the front of the deque, or a new vector when the deque is empty. */
  function Take<T>(p: Pool<T>): (Buffer<T>, Pool<T>) {
    if p.free == [] then (Buffer(p.created, [], p.innerCapacity), p.(created := p.created + 1))
    else (p.free[0], p.(free := p.free[1..]))
  }

  /** `return_vec`: cleared and appended to the deque. */
  function PutBack<T>(p: Pool<T>, b: Buffer<T>): Pool<T> {
    p.(free := p.free + [b.(items := [])])
  }

  /** Every pooled vector is empty. */
  ghost predicate AllEmpty<T>(p: Pool<T>) {
    forall i :: 0 <= i < |p.free| ==> p.free[i].items == []
  }

  lemma TakeIsEmpty<T>(p: Pool<T>)
    requires AllEmpty(p)
    ensures Take(p).0.items == [] && AllEmpty(Take(p).1)
  {
  }

  /** A pool that gets the vector it gave back is turned by one. */
  lemma GivesBack<T>(p: Pool<T>)
    requires AllEmpty(p) && p.free != []
    ensures PutBack(Take(p).1, Take(p).0) == p.(free := p.free[1..] + [p.free[0]])
  {
  }

  // ----- Rotation -----

  /** What the holder of a guard leaves in the vector by the time the guard drops. */
  datatype Use<+T> = Use(items: seq<T>, capacity: nat)

  /** One guard's life: taken, used, dropped. */
  function Cycle<T>(p: Pool<T>, use: Use<T>): Pool<T> {
    var (b, rest) := Take(p);
    PutBack(rest, b.(items := use.items, capacity := use.capacity))
  }

  function Cycles<T>(p: Pool<T>, uses: seq<Use<T>>): Pool<T>
    decreases |uses|
  {
    if uses == [] then p
    else Cycle(Cycles(p, uses[..|uses| - 1]), uses[|uses| - 1])
  }

  function Max(a: nat, b: nat): nat { if a < b then b else a }

  /** After `k` guards the deque of `n` vectors has turned by `k`. */
  ghost predicate TurnedBy<T>(p: Pool<T>, n: nat, k: nat)
    requires n > 0
  {
    && |p.free| == n == p.created
    && AllEmpty(p)
    && forall i :: 0 <= i < n ==> p.free[i].id == (k + i) % n
  }

  lemma TurnOnce<T>(p: Pool<T>, n: nat, k: nat, use: Use<T>)
    requires n > 0 && TurnedBy(p, n, k)
    ensures TurnedBy(Cycle(p, use), n, k + 1)
  {
    var q := Cycle(p, use);
    forall i | 0 <= i < n ensures q.free[i].id == (k + 1 + i) % n {
      if i < n - 1 {
        assert q.free[i] == p.free[i + 1];
      } else {
        assert q.free[i].id == p.free[0].id == k % n;
        DivStep(k + n, n);
      }
    }
  }

  /** The first guard of an empty pool allocates the one vector that is used from then on. */
  lemma FirstCycle<T>(capacity: nat, use: Use<T>)
    ensures TurnedBy(Cycle(Seeded(0, capacity), use), 1, 1)
  {
  }

  /** Whatever the guards' holders do with their vectors: every pooled vector is empty, the
      pool keeps its length, the `k`-th guard (from 0) gets buffer `k mod n`, and no more
      than `max(n, 1)` buffers are ever allocated. */
  lemma {:induction false} Rotation<T>(n: nat, capacity: nat, uses: seq<Use<T>>)
    ensures var p := Cycles(Seeded(n, capacity), uses);
      && AllEmpty(p)
      && Take(p).0.items == []
      && Take(p).0.id == |uses| % Max(n, 1)
      && Take(p).1.created <= Max(n, 1)
      && |p.free| == (if uses == [] then n else Max(n, 1))
    decreases |uses|
  {
    if n > 0 || uses != [] {
      TurnedAfter(n, capacity, uses);
      var p := Cycles(Seeded(n, capacity), uses);
      assert p.free[0].id == (|uses| + 0) % Max(n, 1);
    }
  }

  lemma {:induction false} TurnedAfter<T>(n: nat, capacity: nat, uses: seq<Use<T>>)
    requires n > 0 || uses != []
    ensures TurnedBy(Cycles(Seeded(n, capacity), uses), Max(n, 1), |uses|)
    decreases |uses|
  {
    if uses != [] {
      var before := uses[..|uses| - 1];
      if n == 0 && before == [] {
        FirstCycle(capacity, uses[0]);
      } else {
        TurnedAfter(n, capacity, before);
        TurnOnce(Cycles(Seeded(n, capacity), before), Max(n, 1), |before|, uses[|uses| - 1]);
      }
    } else {
      forall i | 0 <= i < n ensures i % n == i {
        DivUnique(i, n, 0, i);
      }
    }
  }

  // ----- Resizing -----

  /** The capacities `Vec::reserve(additional)` may leave: enough for `additional` more
      items, and unchanged when it was enough before. */
  predicate ReserveAllows(len: nat, capacity: nat, additional: nat, after: nat) {
    if capacity >= len + additional then after == capacity else after >= len + additional
  }

  function SaturatingSub(a: nat, b: nat): nat { if a < b then 0 else a - b }

  /** `resize_all` asks each pooled, hence empty, vector for the missing difference on top
      of its length 0. That forces the new capacity exactly on the vectors that had it
      before or had none at all. */
  lemma ResizeGuarantee(capacity: nat, wanted: nat)
    ensures (forall after: nat :: ReserveAllows(0, capacity, SaturatingSub(wanted, capacity), after) ==> after >= wanted)
       <==> capacity >= wanted || capacity == 0
    ensures forall after: nat :: ReserveAllows(0, capacity, SaturatingSub(wanted, capacity), after) ==>
      after >= capacity && after + capacity >= wanted
  {
    if 0 < capacity < wanted {
      var least: nat := Max(capacity, wanted - capacity);
      assert ReserveAllows(0, capacity, SaturatingSub(wanted, capacity), least);
    }
  }

  method Reserve<T>(b: Buffer<T>, additional: nat) returns (r: Buffer<T>)
    ensures r.id == b.id && r.items == b.items
    ensures ReserveAllows(|b.items|, b.capacity, additional, r.capacity)
  {
    var needed := |b.items| + additional;
    r := if b.capacity >= needed then b else b.(capacity := Max(needed, 2 * b.capacity));
  }

  // ----- The objects -----

  class VecPool<T> {
    var pool: seq<Buffer<T>>
    var innerCapacity: nat
    var created: nat

    ghost predicate Valid()
      reads this
    {
      AllEmpty(View())
    }

    ghost function View(): Pool<T>
      reads this
    {
      Pool(pool, created, innerCapacity)
    }

    constructor WithInitialAmount(amount: nat, innerCapacity: nat)
      ensures Valid() && View() == Seeded(amount, innerCapacity)
      ensures |pool| == amount && forall i :: 0 <= i < amount ==> pool[i].items == [] && pool[i].capacity == innerCapacity
    {
      this.innerCapacity, created := innerCapacity, amount;
      var vecs: seq<Buffer<T>> := [];
      for i := 0 to amount
        invariant vecs == Seeded<T>(i, innerCapacity).free
      {
        vecs := vecs + [Buffer(i, [], innerCapacity)];
      }
      pool := vecs;
    }

    method TakeVec() returns (guard: VecPoolGuard<T>)
      requires Valid()
      modifies this
      ensures Valid() && fresh(guard) && guard.pool == this
      ensures (guard.vec, View()) == Take(old(View()))
      ensures guard.vec.items == []
      ensures old(pool) == [] ==> guard.vec.capacity == innerCapacity && created == old(created) + 1
    {
      var vec;
      if pool == [] {
        vec, created := Buffer(created, [], innerCapacity), created + 1;
      } else {
        vec, pool := pool[0], pool[1..];
      }
      guard := new VecPoolGuard(vec, this);
    }

    method ReturnVec(vec: Buffer<T>)
      requires Valid()
      modifies this`pool
      ensures Valid() && View() == PutBack(old(View()), vec)
    {
      pool := pool + [vec.(items := [])];
    }

    method ResizeAll(newCapacity: nat)
      requires Valid()
      modifies this`pool, this`innerCapacity
      ensures Valid() && innerCapacity == newCapacity && |pool| == |old(pool)|
      ensures forall i :: 0 <= i < |pool| ==>
        && pool[i].id == old(pool)[i].id
        && ReserveAllows(0, old(pool)[i].capacity, SaturatingSub(newCapacity, old(pool)[i].capacity), pool[i].capacity)
    {
      innerCapacity := newCapacity;
      for i := 0 to |pool|
        invariant innerCapacity == newCapacity && |pool| == |old(pool)| && AllEmpty(View())
        invariant forall j :: i <= j < |pool| ==> pool[j] == old(pool)[j]
        invariant forall j :: 0 <= j < i ==>
          && pool[j].id == old(pool)[j].id
          && ReserveAllows(0, old(pool)[j].capacity, SaturatingSub(newCapacity, old(pool)[j].capacity), pool[j].capacity)
      {
        var vec := Reserve(pool[i], SaturatingSub(newCapacity, pool[i].capacity));
        assert pool[i].items == [];
        pool := pool[i := vec];
      }
    }
  }

  /** The vector a caller holds; the pool is borrowed until the guard drops. */
  class VecPoolGuard<T> {
    var vec: Buffer<T>
    const pool: VecPool<T>

    constructor (vec: Buffer<T>, pool: VecPool<T>)
      ensures this.vec == vec && this.pool == pool
    {
      this.vec, this.pool := vec, pool;
    }

    method Drop()
      requires pool.Valid()
      modifies pool`pool
      ensures pool.Valid() && pool.View() == PutBack(old(pool.View()), vec)
    {
      pool.ReturnVec(vec);
    }
  }
}
