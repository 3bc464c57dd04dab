/**
 * Object pooling (js/systems/ObjectPool.js): a bounded free list plus an
 * active set per pool, a manager that keys pools by name, and the particle
 * list that advances, expires and caps its entries.
 *
 * A JavaScript `Set` iterates in insertion order, so the active set is a
 * sequence without duplicates. The objects' own fields are reset by the
 * pool's callbacks; only their identity matters to the pool.
 */
module ObjectPooling {

  /** An object handed out by a pool. */
  class PooledObject {
    constructor () {}
  }

  predicate Distinct<T(==)>(s: seq<T>)
  {
    forall i, j :: 0 <= i < j < |s| ==> s[i] != s[j]
  }

  function Min(a: int, b: int): int { if a <= b then a else b }
  function Max(a: int, b: int): int { if a >= b then a else b }

  /** `s` with `x` deleted, as `Set.prototype.delete` does. */
  function Without<T(==)>(s: seq<T>, x: T): (r: seq<T>)
    ensures |r| <= |s|
    ensures x !in s ==> r == s
  {
    if |s| == 0 then []
    else if s[0] == x then Without(s[1..], x)
    else [s[0]] + Without(s[1..], x)
  }

  /** Deleting keeps exactly the other elements. */
  lemma {:induction false} WithoutMembers<T>(s: seq<T>, x: T)
    ensures forall y :: y in Without(s, x) <==> y in s && y != x
  {
    if |s| > 0 {
      WithoutMembers(s[1..], x);
      assert s == [s[0]] + s[1..];
    }
  }

  /** Deleting from a duplicate-free sequence keeps it duplicate-free and, for a member, removes exactly one entry. */
  lemma {:induction false} WithoutDistinct<T>(s: seq<T>, x: T)
    requires Distinct(s)
    ensures Distinct(Without(s, x))
    ensures x in s ==> |Without(s, x)| == |s| - 1
  {
    if |s| > 0 {
      assert Distinct(s[1..]);
      WithoutDistinct(s[1..], x);
      if s[0] != x {
        assert s[0] !in s[1..];
        WithoutMembers(s[1..], x);
        DistinctConcat([s[0]], Without(s[1..], x));
      } else {
        assert x !in s[1..];
      }
    }
  }

  lemma {:induction false} DistinctConcat<T>(a: seq<T>, b: seq<T>)
    requires Distinct(a) && Distinct(b)
    requires forall i :: 0 <= i < |a| ==> a[i] !in b
    ensures Distinct(a + b)
  {
    forall i, j | 0 <= i < j < |a + b| ensures (a + b)[i] != (a + b)[j] {
      if i < |a| && j >= |a| {
        assert (a + b)[j] == b[j - |a|];
      }
    }
  }

  // ---------------------------------------------------------------------------
  // The contents of one pool, as a value
  // ---------------------------------------------------------------------------

  /** The free list (`pool`) and the active set of one pool. */
  datatype PoolState = PoolState(free: seq<PooledObject>, active: seq<PooledObject>)

  /** No object is listed twice, and none is both free and active. */
  ghost predicate WellFormed(st: PoolState)
  {
    Distinct(st.free) && Distinct(st.active) && forall o :: o in st.free ==> o !in st.active
  }

  /** Every object the pool keeps a reference to. */
  ghost function Managed(st: PoolState): set<PooledObject>
  {
    (set o | o in st.free) + (set o | o in st.active)
  }

  /** What `release(obj)` leaves: unknown objects change nothing; known ones leave the active set and go back to a free list that has room. */
  function Released(st: PoolState, maxSize: int, obj: PooledObject): PoolState
  {
    if obj !in st.active then st
    else PoolState(if |st.free| < maxSize then st.free + [obj] else st.free, Without(st.active, obj))
  }

  /** Releasing `objs` one after another, in order. */
  function ReleasedAll(st: PoolState, maxSize: int, objs: seq<PooledObject>): PoolState
    decreases |objs|
  {
    if |objs| == 0 then st else ReleasedAll(Released(st, maxSize, objs[0]), maxSize, objs[1..])
  }

  /** How many of `n` released objects fit on a free list of length `p` bounded by `maxSize`. */
  function Room(p: nat, n: nat, maxSize: int): (k: nat)
    ensures k <= n
    ensures p <= maxSize ==> p + k <= maxSize
    ensures k < n ==> p + k >= maxSize
  {
    if maxSize - p <= 0 then 0 else Min(n, maxSize - p)
  }

  /** How many successive `acquire` calls succeed: every pooled object, or creations up to `maxSize` active. */
  function Available(p: nat, a: nat, maxSize: int): (k: nat)
    ensures k >= p && k >= maxSize - a
  {
    Max(p, Max(0, maxSize - a))
  }

  /** A release keeps the pool well formed, takes the object out of the active set and never pushes the free list past `maxSize`. */
  lemma {:induction false} ReleaseKeepsInvariant(st: PoolState, maxSize: int, obj: PooledObject)
    requires WellFormed(st)
    ensures var r := Released(st, maxSize, obj);
      WellFormed(r) && obj !in r.active
      && (|st.free| <= maxSize ==> |r.free| <= maxSize)
      && Managed(r) <= Managed(st)
  {
    var r := Released(st, maxSize, obj);
    WithoutDistinct(st.active, obj);
    WithoutMembers(st.active, obj);
    if obj in st.active {
      assert obj !in st.free;
      forall o | o in r.free ensures o !in r.active {
        if o != obj { assert o in st.free; }
      }
      assert WellFormed(r);
      forall o | o in Managed(r) ensures o in Managed(st) {
        if o in r.free && o != obj { assert o in st.free; }
      }
    }
  }

  lemma {:induction false} ReleasedAllKeepsInvariant(st: PoolState, maxSize: int, objs: seq<PooledObject>)
    requires WellFormed(st)
    ensures var r := ReleasedAll(st, maxSize, objs);
      WellFormed(r) && (|st.free| <= maxSize ==> |r.free| <= maxSize)
      && (forall o :: o in objs ==> o !in r.active)
    decreases |objs|
  {
    if |objs| > 0 {
      var st1 := Released(st, maxSize, objs[0]);
      ReleaseKeepsInvariant(st, maxSize, objs[0]);
      ReleasedAllKeepsInvariant(st1, maxSize, objs[1..]);
      var r := ReleasedAll(st1, maxSize, objs[1..]);
      ReleasedAllNeverReactivates(st1, maxSize, objs[1..], objs[0]);
      forall o | o in objs ensures o !in r.active {
        if o != objs[0] { assert o in objs[1..]; }
      }
    }
  }

  /** Releasing never puts an object back into the active set. */
  lemma {:induction false} ReleasedAllNeverReactivates(st: PoolState, maxSize: int, objs: seq<PooledObject>, o: PooledObject)
    requires o !in st.active
    ensures o !in ReleasedAll(st, maxSize, objs).active
    decreases |objs|
  {
    if |objs| > 0 {
      WithoutMembers(st.active, objs[0]);
      ReleasedAllNeverReactivates(Released(st, maxSize, objs[0]), maxSize, objs[1..], o);
    }
  }

  lemma {:induction false} ReleasedAllConcat(st: PoolState, maxSize: int, a: seq<PooledObject>, b: seq<PooledObject>)
    ensures ReleasedAll(st, maxSize, a + b) == ReleasedAll(ReleasedAll(st, maxSize, a), maxSize, b)
    decreases |a|
  {
    if |a| == 0 {
      assert a + b == b;
    } else {
      assert (a + b)[0] == a[0] && (a + b)[1..] == a[1..] + b;
      ReleasedAllConcat(Released(st, maxSize, a[0]), maxSize, a[1..], b);
    }
  }

  /** Releasing one more object after a run of releases. */
  lemma {:induction false} ReleasedAllSnoc(st: PoolState, maxSize: int, a: seq<PooledObject>, o: PooledObject)
    ensures ReleasedAll(st, maxSize, a + [o]) == Released(ReleasedAll(st, maxSize, a), maxSize, o)
  {
    ReleasedAllConcat(st, maxSize, a, [o]);
    assert [o][1..] == [];
  }

  /**
   * `releaseAll` pushes the active objects, in insertion order, while the free
   * list has room, then clears the active set: exactly what releasing each
   * active object in turn would do.
   */
  lemma {:induction false} ReleaseAllIsReleases(st: PoolState, maxSize: int)
    requires WellFormed(st)
    ensures ReleasedAll(st, maxSize, st.active)
      == PoolState(st.free + st.active[..Room(|st.free|, |st.active|, maxSize)], [])
    decreases |st.active|
  {
    var a := st.active;
    if |a| > 0 {
      assert a[0] !in a[1..];
      var st1 := Released(st, maxSize, a[0]);
      assert st1.active == a[1..];
      ReleaseKeepsInvariant(st, maxSize, a[0]);
      ReleaseAllIsReleases(st1, maxSize);
      assert ReleasedAll(st, maxSize, a) == ReleasedAll(st1, maxSize, a[1..]);
      RoomStep(st.free, a, maxSize);
    }
  }

  lemma {:induction false} RoomGrows(p: nat, i: nat, maxSize: int, a: seq<PooledObject>)
    requires i < |a| && p + Room(p, i, maxSize) < maxSize
    ensures a[..Room(p, i + 1, maxSize)] == a[..Room(p, i, maxSize)] + [a[i]]
  {
    assert Room(p, i + 1, maxSize) == Room(p, i, maxSize) + 1;
  }

  /** The loop of `releaseAll`: appends `objs` in order while the free list is shorter than `maxSize`. */
  method PushWhileRoom(free: seq<PooledObject>, objs: seq<PooledObject>, maxSize: int) returns (r: seq<PooledObject>)
    ensures r == free + objs[..Room(|free|, |objs|, maxSize)]
    ensures |free| <= maxSize ==> |r| <= maxSize
    ensures |r| < |free| + |objs| ==> |r| >= maxSize
  {
    r := free;
    var i := 0;
    while i < |objs|
      invariant 0 <= i <= |objs|
      invariant r == free + objs[..Room(|free|, i, maxSize)]
    {
      if |r| < maxSize {
        RoomGrows(|free|, i, maxSize, objs);
        r := r + [objs[i]];
      } else {
        assert Room(|free|, i + 1, maxSize) == Room(|free|, i, maxSize);
      }
      i := i + 1;
    }
    assert objs[..|objs|] == objs;
  }

  lemma {:induction false} RoomStep(f: seq<PooledObject>, a: seq<PooledObject>, maxSize: int)
    requires |a| > 0
    ensures var f1 := if |f| < maxSize then f + [a[0]] else f;
      f1 + a[1..][..Room(|f1|, |a| - 1, maxSize)] == f + a[..Room(|f|, |a|, maxSize)]
  {
    var k := Room(|f|, |a|, maxSize);
    if |f| < maxSize {
      assert Room(|f| + 1, |a| - 1, maxSize) == k - 1;
      assert a[..k] == [a[0]] + a[1..][..k - 1];
    }
  }

  lemma {:induction false} DistinctCard<T>(s: seq<T>)
    requires Distinct(s)
    ensures |set x | x in s| == |s|
    decreases |s|
  {
    if |s| > 0 {
      DistinctCard(s[1..]);
      assert (set x | x in s) == (set x | x in s[1..]) + {s[0]};
      assert s[0] !in s[1..];
    }
  }

  /** In a well-formed pool the free and active counts add up to the number of distinct objects managed. */
  lemma {:induction false} ManagedCount(st: PoolState)
    requires WellFormed(st)
    ensures |Managed(st)| == |st.free| + |st.active|
  {
    DistinctCard(st.free);
    DistinctCard(st.active);
    assert (set o | o in st.free) !! (set o | o in st.active);
  }

  // ---------------------------------------------------------------------------
  // ObjectPool
  // ---------------------------------------------------------------------------

  /** A bounded free list (`pool`) plus the set of objects handed out (`active`). */
  class ObjectPool {
    var pool: seq<PooledObject>
    var active: seq<PooledObject>
    var maxSize: int

    function State(): PoolState
      reads this
    {
      PoolState(pool, active)
    }

    ghost predicate Valid()
      reads this
    {
      WellFormed(State()) && maxSize >= 0
    }

    /** Pre-populates the free list with `initialSize` new objects. */
    constructor (initialSize: nat, maxSize: int)
      requires maxSize >= 0
      ensures Valid() && this.maxSize == maxSize
      ensures |pool| == initialSize && active == []
      ensures forall o :: o in pool ==> fresh(o)
    {
      this.maxSize := maxSize;
      pool := [];
      active := [];
      new;
      var i := 0;
      while i < initialSize
        invariant 0 <= i <= initialSize
        invariant |pool| == i && active == [] && this.maxSize == maxSize
        invariant Distinct(pool)
        invariant forall o :: o in pool ==> fresh(o)
      {
        var o := new PooledObject();
        DistinctConcat(pool, [o]);
        pool := pool + [o];
        i := i + 1;
      }
    }

    /** Pops the most recently freed object, else creates one while fewer than `maxSize` are active, else gives null and changes nothing. */
    method Acquire() returns (obj: PooledObject?)
      requires Valid()
      modifies this
      ensures Valid() && maxSize == old(maxSize)
      ensures old(|pool|) > 0 ==>
        obj == old(pool[|pool| - 1]) && pool == old(pool[..|pool| - 1]) && active == old(active) + [obj]
      ensures old(|pool|) == 0 && old(|active|) < maxSize ==>
        obj != null && fresh(obj) && pool == [] && active == old(active) + [obj]
      ensures old(|pool|) == 0 && old(|active|) >= maxSize ==>
        obj == null && pool == old(pool) && active == old(active)
    {
      if |pool| > 0 {
        var o := pool[|pool| - 1];
        assert o !in pool[..|pool| - 1] && o !in active;
        DistinctConcat(active, [o]);
        pool := pool[..|pool| - 1];
        active := active + [o];
        obj := o;
      } else if |active| < maxSize {
        var o := new PooledObject();
        DistinctConcat(active, [o]);
        active := active + [o];
        obj := o;
      } else {
        obj := null;
      }
    }

    /** `release(obj)`: true iff the object was active. */
    method Release(obj: PooledObject) returns (ok: bool)
      requires Valid()
      modifies this
      ensures Valid() && maxSize == old(maxSize)
      ensures ok <==> obj in old(active)
      ensures State() == Released(old(State()), maxSize, obj)
    {
      ReleaseKeepsInvariant(State(), maxSize, obj);
      if obj !in active {
        return false;
      }
      active := Without(active, obj);
      if |pool| < maxSize {
        pool := pool + [obj];
      }
      ok := true;
    }

    /** Returns every active object to the free list while it has room, then clears the active set. */
    method ReleaseAll()
      requires Valid()
      modifies this
      ensures Valid() && maxSize == old(maxSize) && active == []
      ensures pool == old(pool) + old(active)[..Room(old(|pool|), old(|active|), maxSize)]
      ensures old(|pool|) <= maxSize ==> |pool| <= maxSize
      ensures State() == ReleasedAll(old(State()), maxSize, old(active))
    {
      ReleaseAllIsReleases(State(), maxSize);
      ReleasedAllKeepsInvariant(State(), maxSize, active);
      pool := PushWhileRoom(pool, active, maxSize);
      active := [];
    }

    /** The pop-while loop of the manager's `cleanup`: pops while the free list is longer than `maxSize / 2`. */
    method ShrinkToHalf()
      requires Valid()
      modifies this
      ensures Valid() && active == old(active) && maxSize == old(maxSize)
      ensures pool == old(pool)[..Min(old(|pool|), maxSize / 2)]
    {
      while 2 * |pool| > maxSize
        invariant Valid() && active == old(active) && maxSize == old(maxSize)
        invariant Min(old(|pool|), maxSize / 2) <= |pool| <= old(|pool|)
        invariant pool == old(pool)[..|pool|]
        decreases |pool|
      {
        pool := pool[..|pool| - 1];
      }
    }

    /** The state the constructor leaves: `initialSize` free objects, none active. */
    ghost predicate Pristine(initialSize: nat, maxSize: int)
      reads this
    {
      |pool| == initialSize && active == [] && this.maxSize == maxSize
    }

    function ActiveCount(): nat reads this { |active| }
    function PoolSize(): nat reads this { |pool| }

    /** `getTotalSize`: the number of distinct objects the pool manages. */
    function TotalSize(): (n: nat)
      reads this
      requires Valid()
      ensures n == |Managed(State())|
      ensures n == ActiveCount() + PoolSize()
    {
      ManagedCount(State());
      |pool| + |active|
    }
  }

  // ---------------------------------------------------------------------------
  // GameObjectPoolManager
  // ---------------------------------------------------------------------------

  /** What `getPoolStats` reports for one pool. */
  datatype PoolStats = PoolStats(active: nat, pooled: nat, total: nat)

  /** The names `initializePools` registers pools under. */
  const PoolNames: set<string> :=
    {"particles", "trailPoints", "enemyGraphics", "projectiles", "powerUpGraphics", "healingGraphics"}

  class GameObjectPoolManager {
    var pools: map<string, ObjectPool>
    /** The name each pool is registered under; it shows that no pool is registered under two names. */
    ghost var names: map<ObjectPool, string>

    ghost predicate Valid()
      reads this, pools.Values
    {
      forall n :: n in pools ==> pools[n].Valid() && pools[n] in names && names[pools[n]] == n
    }

    /** A manager holding the six game pools. */
    constructor ()
      ensures Valid() && pools.Keys == PoolNames
      ensures forall n :: n in pools ==> pools[n].active == []
    {
      pools := map[];
      names := map[];
      new;
      InitializePools();
    }

    /** `initializePools`: the six game pools, each with its initial free objects and its maximum size. */
    method InitializePools()
      requires Valid() && pools == map[]
      modifies this
      ensures Valid() && pools.Keys == PoolNames
      ensures forall n :: n in pools ==> pools[n].active == []
    {
      var particles := CreatePool("particles", 100, 300);
      var trailPoints := CreatePool("trailPoints", 50, 150);
      var enemyGraphics := CreatePool("enemyGraphics", 20, 50);
      var projectiles := CreatePool("projectiles", 30, 100);
      var powerUpGraphics := CreatePool("powerUpGraphics", 10, 20);
      var healingGraphics := CreatePool("healingGraphics", 5, 15);
    }

    /** Registers a new pool under `name`, replacing any pool of that name. */
    method CreatePool(name: string, initialSize: nat, maxSize: int) returns (p: ObjectPool)
      requires Valid() && maxSize >= 0
      modifies this
      ensures Valid() && fresh(p) && pools == old(pools)[name := p]
      ensures p.Pristine(initialSize, maxSize)
    {
      p := new ObjectPool(initialSize, maxSize);
      pools := pools[name := p];
      names := names[p := name];
    }

    /** `acquireFromPool`: null for an unknown pool, else the pool's `acquire`. */
    method AcquireFromPool(name: string) returns (obj: PooledObject?)
      requires Valid()
      modifies if name in pools then {pools[name]} else {}
      ensures Valid() && pools == old(pools)
      ensures name !in pools ==> obj == null
      ensures name in pools ==>
        (obj != null <==> old(|pools[name].pool|) > 0 || old(|pools[name].active|) < pools[name].maxSize)
      ensures obj != null ==> name in pools && pools[name].active == old(pools[name].active) + [obj]
      ensures name in pools ==> pools[name].maxSize == old(pools[name].maxSize)
      ensures name in pools && old(|pools[name].pool|) > 0 ==>
        obj == old(pools[name].pool[|pools[name].pool| - 1]) && pools[name].pool == old(pools[name].pool[..|pools[name].pool| - 1])
      ensures name in pools && old(|pools[name].pool|) == 0 ==> pools[name].pool == []
      ensures name in pools && obj == null ==> pools[name].State() == old(pools[name].State())
    {
      if name in pools {
        obj := pools[name].Acquire();
      } else {
        obj := null;
      }
    }

    /** `releaseToPool`: false for an unknown pool, else the pool's `release`. */
    method ReleaseToPool(name: string, obj: PooledObject) returns (ok: bool)
      requires Valid()
      modifies if name in pools then {pools[name]} else {}
      ensures Valid() && pools == old(pools)
      ensures ok <==> name in pools && obj in old(pools[name].active)
      ensures name in pools ==> pools[name].State() == Released(old(pools[name].State()), pools[name].maxSize, obj)
    {
      if name in pools {
        ok := pools[name].Release(obj);
      } else {
        ok := false;
      }
    }

    /**
     * `acquireBatch`: acquires up to `count` objects, stopping at the first
     * null; an unknown pool gives the empty batch.
     */
    method AcquireBatch(name: string, count: nat) returns (batch: seq<PooledObject>)
      requires Valid()
      modifies if name in pools then {pools[name]} else {}
      ensures Valid() && pools == old(pools)
      ensures name !in pools ==> batch == []
      ensures name in pools ==>
        |batch| == Min(count, Available(old(|pools[name].pool|), old(|pools[name].active|), pools[name].maxSize))
        && pools[name].active == old(pools[name].active) + batch
      ensures |batch| <= count
    {
      batch := [];
      if name !in pools {
        return;
      }
      var p := pools[name];
      ghost var p0, a0 := |p.pool|, p.active;
      var i := 0;
      while i < count
        invariant p == pools[name] && pools == old(pools) && Valid()
        invariant i == |batch| <= count && p.maxSize == old(p.maxSize)
        invariant i <= Available(p0, |a0|, p.maxSize)
        invariant p.active == a0 + batch
        invariant |p.pool| == if i <= p0 then p0 - i else 0
        decreases count - i
      {
        var obj := p.Acquire();
        if obj == null {
          break;
        }
        batch := batch + [obj];
        i := i + 1;
      }
    }

    /** `releaseBatch`: releases each object in order; false for an unknown pool. */
    method ReleaseBatch(name: string, objects: seq<PooledObject>) returns (ok: bool)
      requires Valid()
      modifies if name in pools then {pools[name]} else {}
      ensures Valid() && pools == old(pools)
      ensures ok <==> name in pools
      ensures name in pools ==>
        pools[name].State() == ReleasedAll(old(pools[name].State()), pools[name].maxSize, objects)
    {
      if name !in pools {
        return false;
      }
      var p := pools[name];
      ghost var st0 := p.State();
      var i := 0;
      while i < |objects|
        invariant 0 <= i <= |objects| && p == pools[name] && pools == old(pools) && Valid()
        invariant p.maxSize == old(p.maxSize)
        invariant p.State() == ReleasedAll(st0, p.maxSize, objects[..i])
      {
        var _ := p.Release(objects[i]);
        ReleasedAllConcat(st0, p.maxSize, objects[..i], [objects[i]]);
        assert objects[..i + 1] == objects[..i] + [objects[i]];
        i := i + 1;
      }
      assert objects[..i] == objects;
      ok := true;
    }

    /** One pool's `releaseAll`; no other pool changes. */
    method ReleaseOne(name: string)
      requires Valid() && name in pools
      modifies pools[name]
      ensures Valid() && pools == old(pools)
      ensures pools[name].active == [] && pools[name].maxSize == old(pools[name].maxSize)
      ensures pools[name].State() == ReleasedAll(old(pools[name].State()), pools[name].maxSize, old(pools[name].active))
      ensures forall n :: n in pools && n != name ==> pools[n].State() == old(pools[n].State()) && pools[n].maxSize == old(pools[n].maxSize)
    {
      pools[name].ReleaseAll();
    }

    /** One pool's trim to half its `maxSize`; no other pool changes. */
    method ShrinkOne(name: string)
      requires Valid() && name in pools
      modifies pools[name]
      ensures Valid() && pools == old(pools)
      ensures pools[name].active == old(pools[name].active) && pools[name].maxSize == old(pools[name].maxSize)
      ensures pools[name].pool == old(pools[name].pool)[..Min(old(|pools[name].pool|), pools[name].maxSize / 2)]
      ensures forall n :: n in pools && n != name ==>
        pools[n].pool == old(pools[n].pool) && pools[n].active == old(pools[n].active) && pools[n].maxSize == old(pools[n].maxSize)
    {
      pools[name].ShrinkToHalf();
    }

    /** `releaseAllPools`: every pool's `releaseAll`. */
    method ReleaseAllPools()
      requires Valid()
      modifies pools.Values
      ensures Valid() && pools == old(pools)
      ensures forall n :: n in pools ==>
        pools[n].active == [] && pools[n].maxSize == old(pools[n].maxSize)
        && pools[n].State() == ReleasedAll(old(pools[n].State()), pools[n].maxSize, old(pools[n].active))
    {
      var todo := pools.Keys;
      while todo != {}
        invariant todo <= pools.Keys && pools == old(pools) && Valid()
        invariant forall n :: n in pools ==> pools[n].maxSize == old(pools[n].maxSize)
        invariant forall n :: n in todo ==> pools[n].State() == old(pools[n].State())
        invariant forall n :: n in pools && n !in todo ==>
          pools[n].active == [] && pools[n].State() == ReleasedAll(old(pools[n].State()), pools[n].maxSize, old(pools[n].active))
        decreases todo
      {
        var n :| n in todo;
        ReleaseOne(n);
        todo := todo - {n};
      }
    }

    /** `getPoolStats`: per pool, its active, pooled and total counts. */
    function Stats(): (stats: map<string, PoolStats>)
      reads this, pools.Values
      requires Valid()
      ensures stats.Keys == pools.Keys
      ensures forall n :: n in stats ==>
        stats[n].active == |pools[n].active| && stats[n].pooled == |pools[n].pool|
        && stats[n].total == stats[n].active + stats[n].pooled
    {
      map n | n in pools :: PoolStats(pools[n].ActiveCount(), pools[n].PoolSize(), pools[n].TotalSize())
    }

    /** `cleanup`: trims every free list to at most half its `maxSize`, dropping the most recently freed objects; active sets are untouched. */
    method Cleanup()
      requires Valid()
      modifies pools.Values
      ensures Valid() && pools == old(pools)
      ensures forall n :: n in pools ==>
        pools[n].active == old(pools[n].active) && pools[n].maxSize == old(pools[n].maxSize)
        && pools[n].pool == old(pools[n].pool)[..Min(old(|pools[n].pool|), pools[n].maxSize / 2)]
      ensures forall n :: n in pools ==> 2 * |pools[n].pool| <= pools[n].maxSize || pools[n].pool == old(pools[n].pool)
    {
      var todo := pools.Keys;
      while todo != {}
        invariant todo <= pools.Keys && pools == old(pools) && Valid()
        invariant forall n :: n in pools ==>
          pools[n].active == old(pools[n].active) && pools[n].maxSize == old(pools[n].maxSize)
        invariant forall n :: n in todo ==> pools[n].pool == old(pools[n].pool)
        invariant forall n :: n in pools && n !in todo ==>
          pools[n].pool == old(pools[n].pool)[..Min(old(|pools[n].pool|), pools[n].maxSize / 2)]
        decreases todo
      {
        var n :| n in todo;
        ShrinkOne(n);
        todo := todo - {n};
      }
    }
  }

  // ---------------------------------------------------------------------------
  // ParticleSystem list logic
  // ---------------------------------------------------------------------------

  /** The fields a pooled particle carries while it is in the active list. */
  datatype Particle = Particle(
    obj: PooledObject,
    x: real, y: real, vx: real, vy: real,
    color: int, alpha: real, lifetime: real, size: real,
    active: bool)

  function MaxReal(a: real, b: real): real { if a >= b then a else b }

  /** One frame of motion: move, damp velocity by 0.95, age by `delta`, fade over the last 40 frames. */
  function Advanced(p: Particle, delta: real): Particle
  {
    p.(x := p.x + p.vx * delta, y := p.y + p.vy * delta,
       vx := p.vx * 0.95, vy := p.vy * 0.95,
       lifetime := p.lifetime - delta, alpha := MaxReal(0.0, (p.lifetime - delta) / 40.0))
  }

  /** A particle the sweep keeps: active and still alive after this frame. */
  predicate Survives(p: Particle, delta: real)
  {
    p.active && p.lifetime - delta > 0.0
  }

  /** A particle the sweep returns to the pool: active and out of lifetime this frame. */
  predicate Expires(p: Particle, delta: real)
  {
    p.active && p.lifetime - delta <= 0.0
  }

  /** The particles left by the backward sweep, advanced, in their original order. */
  function Survivors(ps: seq<Particle>, delta: real): (r: seq<Particle>)
    ensures |r| <= |ps|
    ensures forall q :: q in r ==> q.active && q.lifetime > 0.0
    decreases |ps|
  {
    if |ps| == 0 then []
    else (if Survives(ps[0], delta) then [Advanced(ps[0], delta)] else []) + Survivors(ps[1..], delta)
  }

  /** The objects the backward sweep releases, in the order it releases them (last particle first). */
  function ExpiredBackward(ps: seq<Particle>, delta: real): seq<PooledObject>
    decreases |ps|
  {
    if |ps| == 0 then []
    else ExpiredBackward(ps[1..], delta) + (if Expires(ps[0], delta) then [ps[0].obj] else [])
  }

  function Handles(ps: seq<Particle>): (hs: seq<PooledObject>)
    ensures |hs| == |ps| && forall i :: 0 <= i < |ps| ==> hs[i] == ps[i].obj
  {
    seq(|ps|, i requires 0 <= i < |ps| => ps[i].obj)
  }

  function CountInactive(ps: seq<Particle>): nat
    decreases |ps|
  {
    if |ps| == 0 then 0 else (if ps[0].active then 0 else 1) + CountInactive(ps[1..])
  }

  /** The sweep accounts for every particle once: kept, released, or dropped because it was already inactive. */
  lemma {:induction false} SweepPartition(ps: seq<Particle>, delta: real)
    ensures |Survivors(ps, delta)| + |ExpiredBackward(ps, delta)| + CountInactive(ps) == |ps|
    decreases |ps|
  {
    if |ps| > 0 {
      SweepPartition(ps[1..], delta);
    }
  }

  /** The oldest entries are dropped until at most `maxParticles` remain. */
  function Capped(ps: seq<Particle>, maxParticles: nat): (r: seq<Particle>)
    ensures |r| <= maxParticles && |r| == Min(|ps|, maxParticles)
    ensures r == ps[|ps| - |r|..]
  {
    if |ps| > maxParticles then ps[|ps| - maxParticles..] else ps
  }

  /** One step of the backward sweep, as the list sees it: the particle at `i` is kept, advanced, or dropped. */
  lemma {:induction false} SweepStepList(ps: seq<Particle>, i: nat, delta: real)
    requires i < |ps|
    ensures Survivors(ps[i..], delta)
      == (if Survives(ps[i], delta) then [Advanced(ps[i], delta)] else []) + Survivors(ps[i + 1..], delta)
  {
    assert ps[i..][0] == ps[i] && ps[i..][1..] == ps[i + 1..];
  }

  /** One step of the backward sweep, as the pool sees it: an expiring particle is released after those behind it. */
  lemma {:induction false} SweepStepState(ps: seq<Particle>, i: nat, delta: real, st0: PoolState, m: int)
    requires i < |ps|
    ensures var before := ReleasedAll(st0, m, ExpiredBackward(ps[i + 1..], delta));
      ReleasedAll(st0, m, ExpiredBackward(ps[i..], delta))
      == if Expires(ps[i], delta) then Released(before, m, ps[i].obj) else before
  {
    assert ps[i..][0] == ps[i] && ps[i..][1..] == ps[i + 1..];
    if Expires(ps[i], delta) {
      ReleasedAllSnoc(st0, m, ExpiredBackward(ps[i + 1..], delta), ps[i].obj);
    } else {
      var e := ExpiredBackward(ps[i + 1..], delta);
      assert ExpiredBackward(ps[i..], delta) == e + [];
      assert e + [] == e;
    }
  }

  lemma {:induction false} Splice<T>(ps: seq<T>, i: nat, tail: seq<T>)
    requires i < |ps|
    ensures var l := ps[..i + 1] + tail;
      l[..i] == ps[..i] && l[i] == ps[i] && l[i + 1..] == tail
  {
  }

  class ParticleSystem {
    const particlePool: ObjectPool
    var activeParticles: seq<Particle>

    ghost predicate Valid()
      reads this, particlePool
    {
      particlePool.Valid()
    }

    /** Takes the manager's 'particles' pool and starts with no particles. */
    constructor (manager: GameObjectPoolManager)
      requires "particles" in manager.pools && manager.pools["particles"].Valid()
      ensures Valid() && particlePool == manager.pools["particles"] && activeParticles == []
    {
      particlePool := manager.pools["particles"];
      activeParticles := [];
    }

    /**
     * `createParticle`: with the quality below 0.3 a roll above it skips the
     * particle; otherwise a pooled object is taken (null when the pool is
     * exhausted) and appended to the active list. `roll` is `Math.random()`.
     */
    method CreateParticle(x: real, y: real, vx: real, vy: real, color: int, lifetime: real, size: real,
                          particleQuality: real, particleMultiplier: real, effectsMultiplier: real, roll: real)
      returns (obj: PooledObject?)
      requires Valid()
      modifies this, particlePool
      ensures Valid() && particlePool.maxSize == old(particlePool.maxSize)
      ensures particleQuality < 0.3 && roll > particleQuality ==>
        obj == null && activeParticles == old(activeParticles) && particlePool.State() == old(particlePool.State())
      ensures obj == null ==> activeParticles == old(activeParticles) && particlePool.State() == old(particlePool.State())
      ensures obj != null <==>
        !(particleQuality < 0.3 && roll > particleQuality)
        && (old(|particlePool.pool|) > 0 || old(|particlePool.active|) < particlePool.maxSize)
      ensures !(particleQuality < 0.3 && roll > particleQuality) && old(|particlePool.pool|) > 0 ==>
        obj == old(particlePool.pool[|particlePool.pool| - 1])
        && particlePool.pool == old(particlePool.pool[..|particlePool.pool| - 1])
      ensures !(particleQuality < 0.3 && roll > particleQuality) && old(|particlePool.pool|) == 0 ==> particlePool.pool == []
      ensures obj != null ==>
        activeParticles == old(activeParticles) + [Particle(obj, x, y, vx * particleMultiplier, vy * particleMultiplier,
          color, 1.0, lifetime * particleMultiplier, size * effectsMultiplier, true)]
        && particlePool.active == old(particlePool.active) + [obj]
    {
      if particleQuality < 0.3 && roll > particleQuality {
        return null;
      }
      obj := particlePool.Acquire();
      if obj == null {
        return;
      }
      activeParticles := activeParticles + [Particle(obj, x, y, vx * particleMultiplier, vy * particleMultiplier,
        color, 1.0, lifetime * particleMultiplier, size * effectsMultiplier, true)];
    }

    /**
     * `update(delta)`: a backward sweep drops inactive particles, advances the
     * rest and releases those whose lifetime ran out; then the oldest
     * particles beyond `maxParticles` are released.
     */
    method Update(delta: real, maxParticles: nat)
      requires Valid()
      modifies this, particlePool
      ensures Valid() && particlePool.maxSize == old(particlePool.maxSize)
      ensures activeParticles == Capped(Survivors(old(activeParticles), delta), maxParticles)
      ensures |activeParticles| <= maxParticles
      ensures forall p :: p in activeParticles ==> p.active && p.lifetime > 0.0
      ensures var surv := Survivors(old(activeParticles), delta);
        particlePool.State() == ReleasedAll(old(particlePool.State()), particlePool.maxSize,
          ExpiredBackward(old(activeParticles), delta) + Handles(surv[..|surv| - |activeParticles|]))
    {
      Sweep(delta);
      ghost var st1 := particlePool.State();
      ghost var surv := activeParticles;
      DropOldest(maxParticles);
      ReleasedAllConcat(old(particlePool.State()), particlePool.maxSize,
        ExpiredBackward(old(activeParticles), delta), Handles(surv[..|surv| - |activeParticles|]));
    }

    /** The backward loop of `update`: splices out inactive and expired particles, releasing the expired ones. */
    method Sweep(delta: real)
      requires Valid()
      modifies this, particlePool
      ensures Valid() && particlePool.maxSize == old(particlePool.maxSize)
      ensures activeParticles == Survivors(old(activeParticles), delta)
      ensures particlePool.State() == ReleasedAll(old(particlePool.State()), particlePool.maxSize,
        ExpiredBackward(old(activeParticles), delta))
    {
      ghost var ps := activeParticles;
      ghost var st0 := particlePool.State();
      ghost var m := particlePool.maxSize;
      var list := activeParticles;
      var i := |list|;
      while i > 0
        invariant 0 <= i <= |ps| && particlePool.Valid() && particlePool.maxSize == m
        invariant list == ps[..i] + Survivors(ps[i..], delta)
        invariant particlePool.State() == ReleasedAll(st0, m, ExpiredBackward(ps[i..], delta))
      {
        i := i - 1;
        list := SweepAt(ps, i, list, delta, st0, m);
      }
      assert ps[0..] == ps;
      activeParticles := list;
    }

    /** One iteration of the backward loop of `update`, at index `i`. */
    method SweepAt(ghost ps: seq<Particle>, i: nat, list: seq<Particle>, delta: real, ghost st0: PoolState, ghost m: int)
      returns (list': seq<Particle>)
      requires i < |ps| && particlePool.Valid() && particlePool.maxSize == m
      requires list == ps[..i + 1] + Survivors(ps[i + 1..], delta)
      requires particlePool.State() == ReleasedAll(st0, m, ExpiredBackward(ps[i + 1..], delta))
      modifies particlePool
      ensures particlePool.Valid() && particlePool.maxSize == m
      ensures list' == ps[..i] + Survivors(ps[i..], delta)
      ensures particlePool.State() == ReleasedAll(st0, m, ExpiredBackward(ps[i..], delta))
    {
      ghost var tail := Survivors(ps[i + 1..], delta);
      assert list[..i] == ps[..i] && list[i] == ps[i] && list[i + 1..] == tail by {
        Splice(ps, i, tail);
      }
      var p := list[i];
      if !p.active {
        assert list[..i] + list[i + 1..] == ps[..i] + Survivors(ps[i..], delta) by {
          SweepStepList(ps, i, delta);
          assert [] + tail == tail;
        }
        assert particlePool.State() == ReleasedAll(st0, m, ExpiredBackward(ps[i..], delta)) by {
          SweepStepState(ps, i, delta, st0, m);
        }
        list' := list[..i] + list[i + 1..];
      } else {
        p := Advanced(p, delta);
        if p.lifetime <= 0.0 {
          assert list[..i] + list[i + 1..] == ps[..i] + Survivors(ps[i..], delta) by {
            SweepStepList(ps, i, delta);
            assert [] + tail == tail;
          }
          var _ := particlePool.Release(p.obj);
          assert particlePool.State() == ReleasedAll(st0, m, ExpiredBackward(ps[i..], delta)) by {
            SweepStepState(ps, i, delta, st0, m);
          }
          list' := list[..i] + list[i + 1..];
        } else {
          assert list[..i] + [p] + list[i + 1..] == ps[..i] + Survivors(ps[i..], delta) by {
            SweepStepList(ps, i, delta);
            assert ps[..i] + [p] + tail == ps[..i] + ([p] + tail);
          }
          assert particlePool.State() == ReleasedAll(st0, m, ExpiredBackward(ps[i..], delta)) by {
            SweepStepState(ps, i, delta, st0, m);
          }
          list' := list[..i] + [p] + list[i + 1..];
        }
      }
    }

    /** The second half of `update`: shifts off and releases the oldest particles beyond `maxParticles`. */
    method DropOldest(maxParticles: nat)
      requires Valid()
      modifies this, particlePool
      ensures Valid() && particlePool.maxSize == old(particlePool.maxSize)
      ensures activeParticles == Capped(old(activeParticles), maxParticles)
      ensures particlePool.State() == ReleasedAll(old(particlePool.State()), particlePool.maxSize,
        Handles(old(activeParticles)[..|old(activeParticles)| - |activeParticles|]))
    {
      ghost var surv := activeParticles;
      ghost var st1 := particlePool.State();
      if |activeParticles| > maxParticles {
        var excess := |activeParticles| - maxParticles;
        var k := 0;
        while k < excess
          invariant 0 <= k <= excess && Valid() && particlePool.maxSize == old(particlePool.maxSize)
          invariant activeParticles == surv[k..]
          invariant particlePool.State() == ReleasedAll(st1, particlePool.maxSize, Handles(surv[..k]))
        {
          var p := activeParticles[0];
          activeParticles := activeParticles[1..];
          ghost var m := particlePool.maxSize;
          var _ := particlePool.Release(p.obj);
          ReleasedAllConcat(st1, m, Handles(surv[..k]), [p.obj]);
          assert [p.obj][1..] == [];
          assert Handles(surv[..k + 1]) == Handles(surv[..k]) + [p.obj];
          k := k + 1;
        }
      } else {
        assert surv[..0] == [];
      }
    }

    /** `clear`: releases every particle in list order and empties the list. */
    method Clear()
      requires Valid()
      modifies this, particlePool
      ensures Valid() && particlePool.maxSize == old(particlePool.maxSize) && activeParticles == []
      ensures particlePool.State() == ReleasedAll(old(particlePool.State()), particlePool.maxSize, Handles(old(activeParticles)))
    {
      ghost var st0 := particlePool.State();
      var i := 0;
      while i < |activeParticles|
        invariant 0 <= i <= |activeParticles| && activeParticles == old(activeParticles)
        invariant Valid() && particlePool.maxSize == old(particlePool.maxSize)
        invariant particlePool.State() == ReleasedAll(st0, particlePool.maxSize, Handles(activeParticles[..i]))
      {
        var _ := particlePool.Release(activeParticles[i].obj);
        ReleasedAllConcat(st0, particlePool.maxSize, Handles(activeParticles[..i]), [activeParticles[i].obj]);
        assert Handles(activeParticles[..i + 1]) == Handles(activeParticles[..i]) + [activeParticles[i].obj];
        i := i + 1;
      }
      assert activeParticles[..i] == activeParticles;
      activeParticles := [];
    }
  }
}
