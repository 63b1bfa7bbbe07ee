/** BulletPool: a FIFO queue of inactive objects. The pool hands out and takes
    back any GameObject: the ones it instantiated itself, numbered in creation
    order, and any other object of the scene a caller passes to ReturnToPool
    (a magic circle, an assault object). `active` records GameObject.activeSelf
    of every object the pool has touched. The bullet prefab is taken to be
    active, so an object made on an empty queue comes out active without
    SetActive(true). */
module Pool {

  /** A GameObject the pool deals with: one it instantiated (the n-th), or
      another object of the scene. */
  datatype Obj = Pooled(n: nat) | Foreign(id: int)

  /** The pool's abstract state: the queue, the active flag of every object
      the pool has touched, and how many objects it has instantiated. */
  datatype PoolState = PoolState(queue: seq<Obj>, active: map<Obj, bool>, created: nat)

  /** obj names an object that exists: every foreign one does, and one of the
      pool's own once it has been instantiated. */
  predicate Existing(st: PoolState, obj: Obj)
  {
    obj.Foreign? || obj.n < st.created
  }

  /** Every object the pool made has a flag, and nothing the pool knows of is
      an object it has not made yet. */
  ghost predicate Wf(st: PoolState)
  {
    (forall n: nat :: n < st.created ==> Pooled(n) in st.active) &&
    (forall o :: o in st.active ==> Existing(st, o)) &&
    (forall k :: 0 <= k < |st.queue| ==> Existing(st, st.queue[k]))
  }

  /** The pool's objects from, from+1, ..., from+n-1. */
  function Ids(from: nat, n: nat): (r: seq<Obj>)
    ensures |r| == n
    ensures forall k :: 0 <= k < n ==> r[k] == Pooled(from + k)
  {
    seq(n, k requires 0 <= k < n => Pooled(from + k))
  }

  /** Instantiate(bulletPrefab) followed by SetActive(false) and Enqueue, n times. */
  function Prefill(st: PoolState, n: nat): (r: PoolState)
    ensures r.created == st.created + n
    ensures r.queue == st.queue + Ids(st.created, n)
    ensures forall o :: o in r.active <==> o in st.active || (o.Pooled? && st.created <= o.n < st.created + n)
    ensures forall k: nat :: st.created <= k < st.created + n ==> !r.active[Pooled(k)]
    ensures forall o :: o in st.active && !(o.Pooled? && st.created <= o.n < st.created + n) ==>
                        r.active[o] == st.active[o]
  {
    if n == 0 then
      assert st.queue + Ids(st.created, 0) == st.queue;
      st
    else
      var prev := Prefill(st, n - 1);
      assert Ids(st.created, n) == Ids(st.created, n - 1) + [Pooled(prev.created)];
      PoolState(prev.queue + [Pooled(prev.created)], prev.active[Pooled(prev.created) := false], prev.created + 1)
  }

  /** After Awake on an empty pool: the queue holds exactly n objects, all
      inactive, each once, in creation order. */
  lemma PrefillFromEmpty(n: nat)
    ensures var r := Prefill(PoolState([], map[], 0), n);
            Wf(r) && |r.queue| == n && r.queue == Ids(0, n) &&
            forall k :: 0 <= k < |r.queue| ==> r.queue[k] in r.active && !r.active[r.queue[k]]
  {
    var r := Prefill(PoolState([], map[], 0), n);
    assert [] + Ids(0, n) == Ids(0, n);
  }

  /** Get: the head of a non-empty queue, whatever object it is, activated;
      otherwise a newly instantiated object, which is not enqueued and which
      the pool has never seen before. */
  function GetSpec(st: PoolState): (r: (PoolState, Obj))
    ensures |st.queue| > 0 ==> r.1 == st.queue[0] && r.0.queue == st.queue[1..] && r.0.created == st.created
    ensures |st.queue| == 0 ==> r.1 == Pooled(st.created) && r.0.queue == [] && r.0.created == st.created + 1
    ensures r.0.active == st.active[r.1 := true]
    ensures Wf(st) && |st.queue| == 0 ==> r.1 !in st.active
    ensures Wf(st) ==> Wf(r.0) && Existing(r.0, r.1)
  {
    if |st.queue| > 0 then
      var obj := st.queue[0];
      (PoolState(st.queue[1..], st.active[obj := true], st.created), obj)
    else
      (PoolState(st.queue, st.active[Pooled(st.created) := true], st.created + 1), Pooled(st.created))
  }

  /** ReturnToPool: deactivate and enqueue any object, with no check that it
      is a bullet or that it is not queued already. */
  function ReturnSpec(st: PoolState, obj: Obj): (r: PoolState)
    ensures r.queue == st.queue + [obj]
    ensures r.active == st.active[obj := false]
    ensures r.created == st.created
    ensures Wf(st) && Existing(st, obj) ==> Wf(r)
  {
    PoolState(st.queue + [obj], st.active[obj := false], st.created)
  }

  /** Whatever object is returned to an empty pool is the next one Get hands
      out as a bullet, foreign objects included. */
  lemma ReturnedObjectIsServed(st: PoolState, obj: Obj)
    requires |st.queue| == 0
    ensures var (r, got) := GetSpec(ReturnSpec(st, obj));
            got == obj && r.queue == [] && r.active[obj] && r.created == st.created
  {
  }

  /** The activeSelf test of ReturnAllBullets: the flag the pool last set,
      and true for an object the pool has never touched, since the tag search
      only finds active objects. */
  predicate ActiveSelf(st: PoolState, obj: Obj)
  {
    obj in st.active ==> st.active[obj]
  }

  /** ReturnAllBullets over the objects the "Enemy_Bullet" tag search found,
      in the order it found them: each one still active is returned. */
  function ReturnAllSpec(st: PoolState, found: seq<Obj>): (r: PoolState)
    ensures r.created == st.created
    ensures Wf(st) && (forall o :: o in found ==> Existing(st, o)) ==> Wf(r)
    decreases |found|
  {
    if |found| == 0 then st
    else
      var st1 := if ActiveSelf(st, found[0]) then ReturnSpec(st, found[0]) else st;
      assert forall o :: o in found[1..] ==> o in found;
      ReturnAllSpec(st1, found[1..])
  }

  /** The found objects that pass the activeSelf test, in order. */
  function ActiveAmong(st: PoolState, found: seq<Obj>): (r: seq<Obj>)
    ensures |r| <= |found|
    ensures forall o :: o in r <==> o in found && ActiveSelf(st, o)
  {
    if |found| == 0 then []
    else (if ActiveSelf(st, found[0]) then [found[0]] else []) + ActiveAmong(st, found[1..])
  }

  predicate Distinct(found: seq<Obj>)
  {
    forall i, j :: 0 <= i < j < |found| ==> found[i] != found[j]
  }

  lemma {:induction false} ActiveAmongSkipsReturned(st: PoolState, obj: Obj, found: seq<Obj>)
    requires obj !in found
    ensures ActiveAmong(ReturnSpec(st, obj), found) == ActiveAmong(st, found)
    decreases |found|
  {
    if |found| > 0 {
      ActiveAmongSkipsReturned(st, obj, found[1..]);
    }
  }

  lemma DistinctTail(found: seq<Obj>)
    requires |found| > 0 && Distinct(found)
    ensures found[0] !in found[1..] && Distinct(found[1..])
  {
    var rest := found[1..];
    forall j | 0 <= j < |rest| ensures rest[j] != found[0] {
      assert rest[j] == found[j + 1];
    }
    forall i, j | 0 <= i < j < |rest| ensures rest[i] != rest[j] {
      assert rest[i] == found[i + 1] && rest[j] == found[j + 1];
    }
  }

  /** ReturnAllBullets enqueues exactly the found objects that are active,
      once each, in the order found. */
  lemma {:induction false} ReturnAllReturnsActive(st: PoolState, found: seq<Obj>)
    requires Distinct(found)
    ensures ReturnAllSpec(st, found).queue == st.queue + ActiveAmong(st, found)
    decreases |found|
  {
    if |found| > 0 {
      var x, rest := found[0], found[1..];
      DistinctTail(found);
      if ActiveSelf(st, x) {
        var st1 := ReturnSpec(st, x);
        ReturnAllReturnsActive(st1, rest);
        ActiveAmongSkipsReturned(st, x, rest);
        assert st.queue + ([x] + ActiveAmong(st, rest)) == st1.queue + ActiveAmong(st, rest);
      } else {
        ReturnAllReturnsActive(st, rest);
      }
    }
  }

  /** After ReturnAllBullets none of the found objects is active, every other
      object keeps its flag, and no object but the found ones gains one. */
  lemma {:induction false} ReturnAllDeactivatesFound(st: PoolState, found: seq<Obj>)
    ensures var r := ReturnAllSpec(st, found);
            (forall o :: o in found ==> o in r.active && !r.active[o]) &&
            (forall o :: o in st.active && o !in found ==> o in r.active && r.active[o] == st.active[o]) &&
            (forall o :: o in r.active ==> o in st.active || o in found)
    decreases |found|
  {
    if |found| > 0 {
      var x, rest := found[0], found[1..];
      var st1 := if ActiveSelf(st, x) then ReturnSpec(st, x) else st;
      ReturnAllDeactivatesFound(st1, rest);
      var r := ReturnAllSpec(st, found);
      assert r == ReturnAllSpec(st1, rest);
      forall o | o in found ensures o in r.active && !r.active[o] {
        if o != x {
          assert o in rest;
        } else if x !in rest {
          assert x in st1.active && !st1.active[x];
        }
      }
    }
  }

  /** Taking an object and giving it back leaves the queue as long as before. */
  lemma GetThenReturnKeepsLength(st: PoolState)
    requires |st.queue| > 0
    ensures var (st1, obj) := GetSpec(st);
            |ReturnSpec(st1, obj).queue| == |st.queue| &&
            ReturnSpec(st1, obj).queue == st.queue[1..] + [st.queue[0]] &&
            !ReturnSpec(st1, obj).active[obj]
  {
  }

  /** ReturnToPool is not idempotent: a second return enqueues the object again. */
  lemma DoubleReturnEnqueuesTwice(st: PoolState, obj: Obj)
    ensures var r := ReturnSpec(ReturnSpec(st, obj), obj);
            r.queue == st.queue + [obj, obj] && |r.queue| == |st.queue| + 2
  {
  }

  class BulletPool {
    var queue: seq<Obj>
    var active: map<Obj, bool>
    var created: nat
    const initialPoolSize: int

    function State(): PoolState
      reads this
    {
      PoolState(queue, active, created)
    }

    ghost predicate Valid()
      reads this
    {
      Wf(State())
    }

    /** Awake: create initialPoolSize inactive objects and enqueue them. */
    constructor (initialPoolSize: int)
      ensures Valid() && this.initialPoolSize == initialPoolSize
      ensures State() == Prefill(PoolState([], map[], 0), if initialPoolSize > 0 then initialPoolSize else 0)
      ensures |queue| == (if initialPoolSize > 0 then initialPoolSize else 0)
      ensures forall k :: 0 <= k < |queue| ==> queue[k] in active && !active[queue[k]]
    {
      this.initialPoolSize := initialPoolSize;
      queue := [];
      active := map[];
      created := 0;
      new;
      var i := 0;
      while i < initialPoolSize
        invariant 0 <= i <= (if initialPoolSize > 0 then initialPoolSize else 0)
        invariant State() == Prefill(PoolState([], map[], 0), i)
      {
        var obj := Pooled(created);
        created := created + 1;
        active := active[obj := false];
        queue := queue + [obj];
        i := i + 1;
      }
      PrefillFromEmpty(i);
    }

    method Get() returns (obj: Obj)
      requires Valid()
      modifies this
      ensures Valid()
      ensures (State(), obj) == GetSpec(old(State()))
      ensures obj in active && active[obj]
    {
      if |queue| > 0 {
        obj := queue[0];
        queue := queue[1..];
        active := active[obj := true];
      } else {
        obj := Pooled(created);
        created := created + 1;
        active := active[obj := true];
      }
    }

    method ReturnToPool(obj: Obj)
      requires Valid() && Existing(State(), obj)
      modifies this
      ensures Valid()
      ensures State() == ReturnSpec(old(State()), obj)
    {
      active := active[obj := false];
      queue := queue + [obj];
    }

    /** ReturnAllBullets over the objects FindGameObjectsWithTag found. */
    method ReturnAllBullets(found: seq<Obj>)
      requires Valid() && forall o :: o in found ==> Existing(State(), o)
      modifies this
      ensures Valid()
      ensures State() == ReturnAllSpec(old(State()), found)
      ensures Distinct(found) ==> queue == old(queue) + ActiveAmong(old(State()), found)
      ensures forall o :: o in found ==> o in active && !active[o]
    {
      ghost var st0 := State();
      var i := 0;
      while i < |found|
        invariant 0 <= i <= |found| && created == st0.created
        invariant Valid()
        invariant ReturnAllSpec(State(), found[i..]) == ReturnAllSpec(st0, found)
      {
        var b := found[i];
        assert found[i..][0] == b && found[i..][1..] == found[i + 1..];
        assert Existing(st0, b);
        if b !in active || active[b] {
          ReturnToPool(b);
        }
        i := i + 1;
      }
      assert found[i..] == [];
      ReturnAllDeactivatesFound(st0, found);
      if Distinct(found) {
        ReturnAllReturnsActive(st0, found);
      }
    }
  }
}
