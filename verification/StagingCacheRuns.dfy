/** What the staging cache does over whole runs: agreement with its policy, its size, the exactness
    of LRU, and the scan resistance of ARC. */
module StagingCacheRuns {
  import opened Outcomes
  import opened OrderedKeys
  import opened StagingCache

  // ---------- Runs ----------

  datatype CacheOp = GetOp(h: BlockHash) | PutOp(h: BlockHash, slot: int) | PinOp(h: BlockHash)
                   | UnpinOp(h: BlockHash) | EvictOp

  function Step(c: Cache, op: CacheOp): Cache {
    match op
    case GetOp(h) => Get(c, h).0
    case PutOp(h, slot) => Put(c, h, slot).0
    case PinOp(h) => Pin(c, h)
    case UnpinOp(h) => Unpin(c, h)
    case EvictOp => EvictOne(c).0
  }

  function Run(c: Cache, ops: seq<CacheOp>): Cache {
    if ops == [] then c else Step(Run(c, ops[..|ops| - 1]), ops[|ops| - 1])
  }

  predicate IsEmptyCache(c: Cache) {
    c == EmptyLruCache(c.capacity) || c == EmptyArcCache(c.capacity)
  }

  lemma StepAgrees(c: Cache, op: CacheOp)
    requires Agree(c)
    ensures Agree(Step(c, op)) && Step(c, op).capacity == c.capacity
  {
    match op
    case GetOp(h) => GetAgrees(c, h);
    case PutOp(h, slot) => PutAgrees(c, h, slot);
    case PinOp(h) => PinAgrees(c, h, 1);
    case UnpinOp(h) => PinAgrees(c, h, -1);
    case EvictOp => EvictAgrees(c);
  }

  /** In every run the policy orders exactly the resident keys, the four ARC lists are disjoint,
      the target stays within [0, c], and no ghost list outgrows c. */
  lemma {:induction false} RunAgrees(c: Cache, ops: seq<CacheOp>)
    requires IsEmptyCache(c)
    ensures Agree(Run(c, ops)) && Run(c, ops).capacity == c.capacity
  {
    if ops != [] {
      RunAgrees(c, ops[..|ops| - 1]);
      StepAgrees(Run(c, ops[..|ops| - 1]), ops[|ops| - 1]);
    }
  }

  // ---------- Size ----------

  predicate AllPinned(c: Cache) {
    forall h :: h in c.slots ==> c.slots[h].copies > 0
  }

  /** A put that finds the cache full and every resident in use. */
  predicate Overfills(c: Cache, op: CacheOp) {
    op.PutOp? && c.capacity > 0 && op.h !in c.slots && |c.slots| >= c.capacity && AllPinned(c)
  }

  function Overfillings(c: Cache, ops: seq<CacheOp>): nat {
    if ops == [] then 0
    else
      var before := ops[..|ops| - 1];
      Overfillings(c, before) + if Overfills(Run(c, before), ops[|ops| - 1]) then 1 else 0
  }

  lemma EvictionSize(c: Cache)
    requires Agree(c)
    ensures EvictOne(c).0.capacity == c.capacity && EvictOne(c).0.slots.Keys <= c.slots.Keys
    ensures |EvictOne(c).0.slots| == if AllPinned(c) then |c.slots| else |c.slots| - 1
  {
    EvictNoneIffAllPinned(c);
    if !AllPinned(c) {
      var v := EvictRemovesOne(c);
    }
  }

  lemma InsertSize(m: map<BlockHash, CacheSlot>, h: BlockHash, s: CacheSlot)
    ensures |m[h := s]| == if h in m then |m| else |m| + 1
  {
    assert m[h := s].Keys == m.Keys + {h};
  }

  lemma PutSize(c: Cache, h: BlockHash, slot: int)
    requires Agree(c) && c.capacity > 0 && h !in c.slots
    ensures |Put(c, h, slot).0.slots| ==
      if |c.slots| < c.capacity || AllPinned(c) then |c.slots| + 1 else |c.slots|
  {
    EvictionSize(c);
    hide AllPinned, EvictOne;
    var c' := if |c.slots| >= c.capacity then EvictOne(c).0 else c;
    InsertSize(c'.slots, h, CacheSlot(slot, 0));
  }

  lemma PutNothing(c: Cache, h: BlockHash, slot: int)
    requires c.capacity == 0 || h in c.slots
    ensures Put(c, h, slot) == (c, Some(slot))
  {
  }

  /** One operation takes the size past both the capacity and where it was exactly when it is a put
      made while all residents of a full cache were pinned. */
  lemma StepGrowsPastCapacityIff(c: Cache, op: CacheOp)
    requires Agree(c)
    ensures |Step(c, op).slots| > Max(c.capacity, |c.slots|) <==> Overfills(c, op)
    ensures |Step(c, op).slots| <= |c.slots| + 1
  {
    hide Agree, AllPinned, EvictOne, Put;
    match op
    case GetOp(h) =>
    case PutOp(h, slot) =>
      if c.capacity > 0 && h !in c.slots { PutSize(c, h, slot); } else { PutNothing(c, h, slot); }
    case PinOp(h) => if h in c.slots { InsertSize(c.slots, h, Pin(c, h).slots[h]); }
    case UnpinOp(h) => if h in c.slots { InsertSize(c.slots, h, Unpin(c, h).slots[h]); }
    case EvictOp => EvictionSize(c);
  }

  /** The cache exceeds its capacity by at most the number of puts made while everything was pinned. */
  lemma {:induction false} SizeBounded(c: Cache, ops: seq<CacheOp>)
    requires IsEmptyCache(c)
    ensures |Run(c, ops).slots| <= c.capacity + Overfillings(c, ops)
  {
    if ops != [] {
      var before := ops[..|ops| - 1];
      SizeBounded(c, before);
      RunAgrees(c, before);
      StepGrowsPastCapacityIff(Run(c, before), ops[|ops| - 1]);
    }
  }

  // ---------- LRU: victims under pins ----------

  /** A cache together with the time each resident was last used: hit by a get, or inserted. */
  datatype Clocked = Clocked(c: Cache, lastUse: map<BlockHash, nat>, now: nat)

  /** The key an operation uses, if it uses one. */
  function Uses(c: Cache, op: CacheOp): Option<BlockHash> {
    match op
    case GetOp(h) => if h in c.slots then Some(h) else None
    case PutOp(h, _) => if c.capacity > 0 && h !in c.slots then Some(h) else None
    case _ => None
  }

  function ClockedStep(k: Clocked, op: CacheOp): Clocked {
    var used := Uses(k.c, op);
    Clocked(Step(k.c, op), if used.Some? then k.lastUse[used.value := k.now] else k.lastUse, k.now + 1)
  }

  function ClockedRun(k: Clocked, ops: seq<CacheOp>): Clocked {
    if ops == [] then k else ClockedStep(ClockedRun(k, ops[..|ops| - 1]), ops[|ops| - 1])
  }

  /** A key's last use; never-used keys come first. */
  ghost function UseTime(lastUse: map<BlockHash, nat>): BlockHash -> int {
    h => if h in lastUse then lastUse[h] as int else -1
  }

  /** The order of the LRU list is the order of last use. */
  ghost predicate OrderedByUse(k: Clocked) {
    && k.c.policy.Lru? && Agree(k.c)
    && (forall h :: h in k.c.slots ==> h in k.lastUse && k.lastUse[h] < k.now)
    && SortedBy(k.c.policy.od, UseTime(k.lastUse))
  }

  lemma EvictKeepsOrder(k: Clocked)
    requires OrderedByUse(k)
    ensures OrderedByUse(k.(c := EvictOne(k.c).0))
  {
    EvictAgrees(k.c);
    var order := k.c.policy.od;
    var v := FirstEvictable(order, k.c.slots);
    if v < |order| {
      WithoutSorted(order, order[v], UseTime(k.lastUse));
    }
  }

  /** Using a key, resident or about to be, moves it behind all others. */
  lemma UseKeepsOrder(k: Clocked, h: BlockHash)
    requires OrderedByUse(k)
    ensures SortedBy(MoveToEnd(k.c.policy.od, h), UseTime(k.lastUse[h := k.now]))
  {
    assert forall x :: x in k.c.policy.od ==> Resident(k.c.policy, x);
    MoveToEndSorted(k.c.policy.od, h, UseTime(k.lastUse), UseTime(k.lastUse[h := k.now]));
  }

  /** The state right before an insertion: what is left after making room. */
  function Roomy(k: Clocked): Clocked {
    if |k.c.slots| >= k.c.capacity then k.(c := EvictOne(k.c).0) else k
  }

  lemma PutAfterRoom(k: Clocked, h: BlockHash, slot: int)
    requires k.c.policy.Lru? && k.c.capacity > 0 && h !in k.c.slots
    ensures var k', r := ClockedStep(k, PutOp(h, slot)), Roomy(k);
      && r.c.policy.Lru? && r.lastUse == k.lastUse
      && k'.c.policy == Lru(MoveToEnd(r.c.policy.od, h))
      && k'.c.slots == r.c.slots[h := CacheSlot(slot, 0)]
      && k'.lastUse == k.lastUse[h := k.now] && k'.now == k.now + 1
  {
  }

  lemma RoomyOrdered(k: Clocked)
    requires OrderedByUse(k)
    ensures OrderedByUse(Roomy(k)) && Roomy(k).now == k.now
  {
    EvictKeepsOrder(k);
  }

  lemma InsertKeepsOrder(k: Clocked, h: BlockHash, slot: int)
    requires OrderedByUse(k) && k.c.capacity > 0 && h !in k.c.slots
    ensures OrderedByUse(ClockedStep(k, PutOp(h, slot)))
  {
    StepAgrees(k.c, PutOp(h, slot));
    PutAfterRoom(k, h, slot);
    RoomyOrdered(k);
    UseKeepsOrder(Roomy(k), h);
    hide Agree, EvictOne, SortedBy, MoveToEnd, Put, Roomy, ClockedStep;
  }

  lemma HitKeepsOrder(k: Clocked, h: BlockHash)
    requires OrderedByUse(k) && h in k.c.slots
    ensures OrderedByUse(ClockedStep(k, GetOp(h)))
  {
    StepAgrees(k.c, GetOp(h));
    UseKeepsOrder(k, h);
    assert Resident(k.c.policy, h);
    hide Agree, SortedBy, MoveToEnd;
  }

  lemma ClockedStepKeepsOrder(k: Clocked, op: CacheOp)
    requires OrderedByUse(k)
    ensures OrderedByUse(ClockedStep(k, op))
  {
    StepAgrees(k.c, op);
    hide Agree, EvictOne, Put, SortedBy, MoveToEnd;
    match op
    case GetOp(h) => if h in k.c.slots { HitKeepsOrder(k, h); }
    case PutOp(h, slot) =>
      if k.c.capacity > 0 && h !in k.c.slots { InsertKeepsOrder(k, h, slot); } else { PutNothing(k.c, h, slot); }
    case PinOp(h) =>
    case UnpinOp(h) =>
    case EvictOp => EvictKeepsOrder(k);
  }

  lemma {:induction false} ClockedRunKeepsOrder(capacity: nat, ops: seq<CacheOp>)
    ensures OrderedByUse(ClockedRun(Clocked(EmptyLruCache(capacity), map[], 0), ops))
    ensures ClockedRun(Clocked(EmptyLruCache(capacity), map[], 0), ops).c == Run(EmptyLruCache(capacity), ops)
  {
    if ops != [] {
      ClockedRunKeepsOrder(capacity, ops[..|ops| - 1]);
      ClockedStepKeepsOrder(ClockedRun(Clocked(EmptyLruCache(capacity), map[], 0), ops[..|ops| - 1]), ops[|ops| - 1]);
    }
  }

  /** `v` is evictable and was last used before every other evictable resident. */
  ghost predicate OldestUnpinned(k: Clocked, v: BlockHash) {
    && Evictable(k.c.slots, v)
    && forall h :: Evictable(k.c.slots, h) && h != v ==> UseTime(k.lastUse)(v) < UseTime(k.lastUse)(h)
  }

  lemma VictimOfOrderedIsOldest(k: Clocked)
    requires OrderedByUse(k) && EvictOne(k.c).1.Some?
    ensures exists v :: OldestUnpinned(k, v) && EvictOne(k.c).0.slots == k.c.slots - {v}
  {
    var od := k.c.policy.od;
    var m := FirstEvictable(od, k.c.slots);
    var v := od[m];
    forall h | Evictable(k.c.slots, h) && h != v ensures UseTime(k.lastUse)(v) < UseTime(k.lastUse)(h) {
      assert Resident(k.c.policy, h);
      var n :| 0 <= n < |od| && od[n] == h;
    }
    assert OldestUnpinned(k, v);
  }

  /** After any run, pins and evictions included, the LRU victim is the unpinned resident whose last
      use is the oldest. */
  lemma LruVictimIsOldestUnpinned(capacity: nat, ops: seq<CacheOp>)
    ensures var k := ClockedRun(Clocked(EmptyLruCache(capacity), map[], 0), ops);
      && k.c == Run(EmptyLruCache(capacity), ops)
      && k.c.slots.Keys <= k.lastUse.Keys
      && (EvictOne(k.c).1.Some? ==>
            exists v :: OldestUnpinned(k, v) && EvictOne(k.c).0.slots == k.c.slots - {v})
  {
    ClockedRunKeepsOrder(capacity, ops);
    var k := ClockedRun(Clocked(EmptyLruCache(capacity), map[], 0), ops);
    hide EvictOne;
    if EvictOne(k.c).1.Some? {
      VictimOfOrderedIsOldest(k);
    }
  }

  // ---------- LRU: exactness ----------

  /** One use of the cache by a load: look the key up, retain it on a miss. */
  function Access(c: Cache, h: BlockHash, slot: int): Cache {
    if Get(c, h).1.Some? then Get(c, h).0 else Put(Get(c, h).0, h, slot).0
  }

  function AccessRun(c: Cache, keys: seq<BlockHash>, slots: seq<int>): Cache
    requires |keys| == |slots|
  {
    if keys == [] then c
    else
      var n := |keys| - 1;
      Access(AccessRun(c, keys[..n], slots[..n]), keys[n], slots[n])
  }

  /** The distinct keys of a trace, ordered by last access, oldest first. */
  function Recency(keys: seq<BlockHash>): seq<BlockHash> {
    if keys == [] then [] else MoveToEnd(Recency(keys[..|keys| - 1]), keys[|keys| - 1])
  }

  /** Position of the last access to `h`, or -1. */
  function LastAccess(keys: seq<BlockHash>, h: BlockHash): (r: int)
    ensures -1 <= r < |keys|
    ensures r >= 0 ==> keys[r] == h
    ensures r == -1 <==> h !in keys
  {
    if keys == [] then -1
    else if keys[|keys| - 1] == h then |keys| - 1
    else
      var r := LastAccess(keys[..|keys| - 1], h);
      assert h in keys ==> h in keys[..|keys| - 1];
      r
  }

  /** `Recency` is what its name says: each accessed key once, in the order of last access. */
  lemma {:induction false} RecencyIsByLastAccess(keys: seq<BlockHash>)
    ensures Distinct(Recency(keys))
    ensures forall h :: h in Recency(keys) <==> h in keys
    ensures SortedBy(Recency(keys), h => LastAccess(keys, h))
  {
    if keys != [] {
      var before, h := keys[..|keys| - 1], keys[|keys| - 1];
      RecencyIsByLastAccess(before);
      assert keys == before + [h];
      MoveToEndDistinct(Recency(before), h);
      MoveToEndSorted(Recency(before), h, x => LastAccess(before, x), x => LastAccess(keys, x));
    }
  }

  lemma {:induction false} UnpinnedThroughout(capacity: nat, keys: seq<BlockHash>, slots: seq<int>)
    requires |keys| == |slots|
    ensures var c := AccessRun(EmptyLruCache(capacity), keys, slots);
      Agree(c) && c.policy.Lru? && c.capacity == capacity && NothingPinned(c)
  {
    if keys != [] {
      var n := |keys| - 1;
      UnpinnedThroughout(capacity, keys[..n], slots[..n]);
      var c := AccessRun(EmptyLruCache(capacity), keys[..n], slots[..n]);
      GetAgrees(c, keys[n]);
      PutAgrees(c, keys[n], slots[n]);
    }
  }

  /** A key older than the suffix comes back: everything in the suffix moves up by one. */
  lemma SuffixOfReturning(r: seq<BlockHash>, n: nat, h: BlockHash, i: nat)
    requires i < |r| && n > 0 && i < |r| - n
    ensures Suffix((r[..i] + r[i + 1..]) + [h], n) == Suffix(r, n)[1..] + [h]
  {
  }

  lemma SuffixOfNew(r: seq<BlockHash>, n: nat, h: BlockHash)
    requires n > 0
    ensures Suffix(r + [h], n) == if |r| < n then r + [h] else Suffix(r, n)[1..] + [h]
  {
  }

  lemma SuffixOfReused(a: seq<BlockHash>, b: seq<BlockHash>, h: BlockHash)
    requires h !in a && h in b
    ensures Suffix(MoveToEnd(a + b, h), |b|) == MoveToEnd(b, h)
  {
    WithoutConcat(a, b, h);
    assert a + Without(b, h) + [h] == a + (Without(b, h) + [h]);
  }

  /** Moving a key to the end of a list, seen through the list's last `n` places. */
  lemma SuffixMoveToEnd(r: seq<BlockHash>, n: nat, h: BlockHash)
    requires Distinct(r) && n > 0
    ensures Suffix(MoveToEnd(r, h), n) ==
      if h in Suffix(r, n) then MoveToEnd(Suffix(r, n), h)
      else if |r| < n then r + [h] else Suffix(r, n)[1..] + [h]
  {
    if h !in r {
      assert forall x :: x in Suffix(r, n) ==> x in r;
      SuffixOfNew(r, n, h);
    } else if |r| > n {
      var i := WithoutSplit(r, h);
      var a, b := r[..|r| - n], r[|r| - n..];
      assert r == a + b;
      if i < |r| - n {
        assert h !in b;
        SuffixOfReturning(r, n, h, i);
      } else {
        assert b[i - (|r| - n)] == h;
        assert h !in a by { assert a <= r[..i]; }
        SuffixOfReused(a, b, h);
      }
    }
  }

  lemma KeysCount(c: Cache)
    requires Agree(c) && c.policy.Lru?
    ensures |c.slots| == |c.policy.od|
  {
    assert forall h :: Resident(c.policy, h) <==> h in c.slots;
    assert c.slots.Keys == Members(c.policy.od);
    DistinctCount(c.policy.od);
  }

  /** A miss on a full, unpinned LRU cache replaces the oldest key. */
  lemma MissReplacesOldest(c: Cache, h: BlockHash, slot: int)
    requires Agree(c) && c.policy.Lru? && h !in c.slots && NothingPinned(c) && c.capacity > 0
    ensures Access(c, h, slot).policy ==
      if |c.policy.od| < c.capacity then Lru(c.policy.od + [h]) else Lru(c.policy.od[1..] + [h])
  {
    KeysCount(c);
    var od := c.policy.od;
    assert h !in od by { assert !Resident(c.policy, h); }
    assert Access(c, h, slot) == Put(c, h, slot).0;
    assert Without(od, h) == od;
    if |od| >= c.capacity {
      FirstVictimIfUnpinned(c);
      assert Without(od, od[0]) == od[1..];
      assert h !in od[1..];
    }
  }

  /** LRU is exact: after any trace of accesses with no pins and no outside eviction, the residents,
      in order, are the `capacity` (or all, if fewer were seen) most recently accessed distinct keys. */
  lemma {:induction false} LruExact(capacity: nat, keys: seq<BlockHash>, slots: seq<int>)
    requires |keys| == |slots|
    ensures AccessRun(EmptyLruCache(capacity), keys, slots).policy == Lru(Suffix(Recency(keys), capacity))
    ensures forall h :: h in AccessRun(EmptyLruCache(capacity), keys, slots).slots
                   <==> h in Suffix(Recency(keys), capacity)
  {
    UnpinnedThroughout(capacity, keys, slots);
    if keys != [] {
      var n := |keys| - 1;
      LruExact(capacity, keys[..n], slots[..n]);
      LruExactStep(capacity, keys, slots);
    }
    assert forall h :: Resident(Lru(Suffix(Recency(keys), capacity)), h) <==> h in Suffix(Recency(keys), capacity);
  }

  lemma LruExactStep(capacity: nat, keys: seq<BlockHash>, slots: seq<int>)
    requires |keys| == |slots| > 0
    requires AccessRun(EmptyLruCache(capacity), keys[..|keys| - 1], slots[..|keys| - 1]).policy
          == Lru(Suffix(Recency(keys[..|keys| - 1]), capacity))
    ensures AccessRun(EmptyLruCache(capacity), keys, slots).policy == Lru(Suffix(Recency(keys), capacity))
  {
    var n := |keys| - 1;
    var c := AccessRun(EmptyLruCache(capacity), keys[..n], slots[..n]);
    var r, h := Recency(keys[..n]), keys[n];
    UnpinnedThroughout(capacity, keys[..n], slots[..n]);
    RecencyIsByLastAccess(keys[..n]);
    var od := c.policy.od;
    assert h in c.slots <==> h in od by { assert Resident(c.policy, h) <==> h in od; }
    hide Agree, Suffix, MoveToEnd, Recency, SortedBy;
    if capacity == 0 {
      EmptySuffix(r);
      EmptySuffix(Recency(keys));
    } else {
      SuffixMoveToEnd(r, capacity, h);
      RecencyLast(keys);
      if h !in c.slots {
        MissReplacesOldest(c, h, slots[n]);
        SuffixWhole(r, capacity);
      }
    }
  }

  lemma RecencyLast(keys: seq<BlockHash>)
    requires keys != []
    ensures Recency(keys) == MoveToEnd(Recency(keys[..|keys| - 1]), keys[|keys| - 1])
  {
  }

  lemma EmptySuffix(s: seq<BlockHash>)
    ensures Suffix(s, 0) == []
  {
  }

  lemma SuffixWhole(s: seq<BlockHash>, n: nat)
    ensures |s| < n ==> Suffix(s, n) == s
  {
  }

  /** On the same trace a larger LRU cache always contains a smaller one. */
  lemma LruInclusion(small: nat, large: nat, keys: seq<BlockHash>, slots: seq<int>)
    requires small <= large && |keys| == |slots|
    ensures AccessRun(EmptyLruCache(small), keys, slots).slots.Keys
         <= AccessRun(EmptyLruCache(large), keys, slots).slots.Keys
  {
    LruExact(small, keys, slots);
    LruExact(large, keys, slots);
    hide AccessRun, Suffix, Recency;
    SuffixesNest(Recency(keys), small, large);
  }

  lemma SuffixesNest(s: seq<BlockHash>, n: nat, m: nat)
    requires n <= m
    ensures forall h :: h in Suffix(s, n) ==> h in Suffix(s, m)
  {
    var d := |Suffix(s, m)| - |Suffix(s, n)|;
    assert Suffix(s, n) == Suffix(s, m)[d..];
  }

  // ---------- ARC: scan resistance ----------

  /** A key the cache has no memory of. */
  predicate Unknown(a: Policy, k: BlockHash)
    requires a.Arc?
  {
    k !in a.t1 && k !in a.t2 && k !in a.b1 && k !in a.b2
  }

  predicate NothingPinned(c: Cache) {
    forall h :: h in c.slots ==> c.slots[h].copies <= 0
  }

  lemma FirstVictimIfUnpinned(c: Cache)
    requires Agree(c) && NothingPinned(c) && Victims(c.policy) != []
    ensures FirstEvictable(Victims(c.policy), c.slots) == 0
  {
    var order := Victims(c.policy);
    VictimsAreResidents(c.policy);
    assert order[0] in order && Resident(c.policy, order[0]);
    assert Evictable(c.slots, order[0]);
  }

  /** T2 is untouched and T1 does not shrink, or T2 gave up its oldest key because T1 had not outgrown
      the target, and T1 grew. */
  predicate ScanEffect(a: Policy, a': Policy)
    requires a.Arc? && a'.Arc?
  {
    || (a'.t2 == a.t2 && |a'.t1| >= |a.t1|)
    || (a.t2 != [] && a'.t2 == a.t2[1..] && |a'.t1| == |a.t1| + 1 && |a.t1| <= a.p)
  }

  /** Unpinned ARC evicts the oldest key of T1 when T1 is above target or T2 is empty, else of T2. */
  lemma ArcEviction(c: Cache)
    requires Agree(c) && c.policy.Arc? && NothingPinned(c) && Victims(c.policy) != []
    ensures var a, a' := c.policy, EvictOne(c).0.policy;
      && a'.Arc? && a'.p == a.p && a'.c == a.c
      && (if |a.t1| > a.p || a.t2 == [] then a.t1 != [] && a'.t1 == a.t1[1..] && a'.t2 == a.t2
          else a'.t1 == a.t1 && a'.t2 == a.t2[1..])
      && forall x :: Unknown(a, x) ==> Unknown(a', x)
  {
    FirstVictimIfUnpinned(c);
    var a := c.policy;
    var v := Victims(a)[0];
    if |a.t1| > a.p || a.t2 == [] {
      assert v == a.t1[0] && v in a.t1 && Without(a.t1, v) == a.t1[1..];
    } else {
      assert v == a.t2[0] && v in a.t2 && Without(a.t2, v) == a.t2[1..];
    }
    var b1, b2 := if v in a.t1 then Append(a.b1, v) else a.b1, if v in a.t1 then a.b2 else Append(a.b2, v);
    SuffixMembers(b1, a.c);
    SuffixMembers(b2, a.c);
  }

  lemma SuffixMembers(s: seq<BlockHash>, n: nat)
    ensures forall x :: x in Suffix(s, n) ==> x in s
  {
  }

  lemma ArcAdmitUnknown(a: Policy, k: BlockHash)
    requires a.Arc? && Unknown(a, k)
    ensures Admit(a, k).Arc? && Admit(a, k).t1 == a.t1 + [k] && Admit(a, k).t2 == a.t2 && Admit(a, k).p == a.p
    ensures forall x :: x != k && Unknown(a, x) ==> Unknown(Admit(a, k), x)
  {
    SuffixMembers(a.b1, a.c);
    SuffixMembers(a.b2, a.c);
  }

  /** A scanned key, unknown to ARC, enters T1, the target does not move, and T2 loses its oldest key
      only when T1 had not outgrown the target. */
  lemma ScanStep(c: Cache, k: BlockHash, slot: int)
    requires Agree(c) && c.policy.Arc? && NothingPinned(c) && Unknown(c.policy, k)
    ensures var c' := Access(c, k, slot);
      && Agree(c') && c'.policy.Arc? && NothingPinned(c') && c'.capacity == c.capacity
      && c'.policy.p == c.policy.p && ScanEffect(c.policy, c'.policy)
      && (forall x :: x != k && Unknown(c.policy, x) ==> Unknown(c'.policy, x))
  {
    var a := c.policy;
    assert k !in c.slots by { assert !Resident(a, k); }
    PutAgrees(c, k, slot);
    if c.capacity > 0 {
      if |c.slots| >= c.capacity {
        var x :| x in c.slots;
        assert Resident(a, x) && x in Victims(a);
        hide Agree;
        ArcEviction(c);
        FirstVictimIfUnpinned(c);
      }
      hide Agree, EvictOne, Admit;
      var c' := if |c.slots| >= c.capacity then EvictOne(c).0 else c;
      ArcAdmitUnknown(c'.policy, k);
      EvictedUnpinned(c);
    }
  }

  lemma EvictedUnpinned(c: Cache)
    requires NothingPinned(c)
    ensures NothingPinned(EvictOne(c).0) && EvictOne(c).0.capacity == c.capacity
  {
  }

  function ScanAllowance(a: Policy): nat
    requires a.Arc?
  {
    Max(0, a.p + 1 - |a.t1|)
  }

  /** Scan resistance: with nothing pinned, a scan of any length over distinct keys that ARC does not
      know evicts only the oldest keys of T2, and at most `max(0, p + 1 - |T1|)` of them. */
  lemma {:induction false} ArcScanResistance(c: Cache, keys: seq<BlockHash>, slots: seq<int>) returns (e: nat)
    requires Agree(c) && c.policy.Arc? && NothingPinned(c)
    requires |keys| == |slots| && Distinct(keys) && forall k :: k in keys ==> Unknown(c.policy, k)
    ensures var c' := AccessRun(c, keys, slots);
      && Agree(c') && c'.policy.Arc? && NothingPinned(c') && c'.policy.p == c.policy.p
      && (forall x :: x !in keys && Unknown(c.policy, x) ==> Unknown(c'.policy, x))
      && e <= |c.policy.t2| && c'.policy.t2 == c.policy.t2[e..]
      && e + ScanAllowance(c'.policy) <= ScanAllowance(c.policy)
    ensures e <= ScanAllowance(c.policy)
  {
    e := 0;
    if keys != [] {
      var n := |keys| - 1;
      var before := AccessRun(c, keys[..n], slots[..n]);
      e := ArcScanResistance(c, keys[..n], slots[..n]);
      assert keys[n] !in keys[..n];
      ScanStep(before, keys[n], slots[n]);
      if AccessRun(c, keys, slots).policy.t2 != before.policy.t2 {
        e := e + 1;
      }
    }
  }
}
