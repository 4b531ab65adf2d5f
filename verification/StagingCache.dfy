/** The staging-data cache and its two eviction policies (py_kvcache/staging_cache.py): values and
    operations. The classes that carry them out in place are in StagingCacheObjects. */
module StagingCache {
  import opened Outcomes
  import opened OrderedKeys

  /** Block hashes are only ever compared for equality. */
  type BlockHash = nat

  function Max(a: int, b: int): int { if a >= b then a else b }

  function Min(a: int, b: int): int { if a <= b then a else b }

  // ---------- Eviction policies ----------

  datatype Policy =
    | Lru(od: seq<BlockHash>)
    | Arc(c: nat, p: int, t1: seq<BlockHash>, t2: seq<BlockHash>, b1: seq<BlockHash>, b2: seq<BlockHash>)

  function EmptyArc(capacity: nat): Policy { Arc(Max(1, capacity), 0, [], [], [], []) }

  /** How far a ghost hit moves the target: the other ghost list's size over this one's, at least one. */
  function Delta(mine: nat, other: nat): (d: int)
    ensures d >= 1
  {
    if mine == 0 then 1 else Max(1, other / Max(1, mine))
  }

  function TrimGhosts(a: Policy): Policy
    requires a.Arc?
  {
    a.(b1 := Suffix(a.b1, a.c), b2 := Suffix(a.b2, a.c))
  }

  function Admit(a: Policy, k: BlockHash): Policy {
    match a
    case Lru(od) => Lru(MoveToEnd(od, k))
    case Arc(c, p, t1, t2, b1, b2) =>
      TrimGhosts(
        if k in b1 then
          Arc(c, Min(c, p + Delta(|b1|, |b2|)), t1, Append(t2, k), Without(b1, k), b2)
        else if k in b2 then
          Arc(c, Max(0, p - Delta(|b2|, |b1|)), t1, Append(t2, k), b1, Without(b2, k))
        else
          Arc(c, p, Append(t1, k), t2, b1, b2))
  }

  function Touch(a: Policy, k: BlockHash): Policy {
    match a
    case Lru(od) => if k in od then Lru(MoveToEnd(od, k)) else a
    case Arc(c, p, t1, t2, b1, b2) =>
      if k in t1 then Arc(c, p, Without(t1, k), Append(t2, k), b1, b2)
      else if k in t2 then Arc(c, p, t1, MoveToEnd(t2, k), b1, b2)
      else a
  }

  /** Drops a resident key; ARC remembers it in the matching ghost list. */
  function Forget(a: Policy, k: BlockHash): Policy {
    match a
    case Lru(od) => Lru(Without(od, k))
    case Arc(c, p, t1, t2, b1, b2) =>
      TrimGhosts(
        if k in t1 then Arc(c, p, Without(t1, k), t2, Append(b1, k), b2)
        else if k in t2 then Arc(c, p, t1, Without(t2, k), b1, Append(b2, k))
        else a)
  }

  /** Resident keys in the order in which they should be evicted. */
  function Victims(a: Policy): seq<BlockHash> {
    match a
    case Lru(od) => od
    case Arc(c, p, t1, t2, b1, b2) => if |t1| > p then t1 + t2 else t2 + t1
  }

  // ---------- The cache ----------

  /** A retained slot; `copies` counts the loads that are copying out of it. */
  datatype CacheSlot = CacheSlot(slotIndex: int, copies: int)

  datatype Cache = Cache(capacity: nat, policy: Policy, slots: map<BlockHash, CacheSlot>)

  function EmptyLruCache(capacity: nat): Cache { Cache(capacity, Lru([]), map[]) }

  function EmptyArcCache(capacity: nat): Cache { Cache(capacity, EmptyArc(capacity), map[]) }

  /** A hit marks the key as used; a miss changes nothing. */
  function Get(c: Cache, h: BlockHash): (Cache, Option<CacheSlot>) {
    if h in c.slots then (c.(policy := Touch(c.policy, h)), Some(c.slots[h])) else (c, None)
  }

  predicate Evictable(slots: map<BlockHash, CacheSlot>, h: BlockHash) {
    h in slots && slots[h].copies <= 0
  }

  /** Position of the first key of `order` that is resident and not being copied from; past the end
      if there is none. */
  function FirstEvictable(order: seq<BlockHash>, slots: map<BlockHash, CacheSlot>): (r: nat)
    ensures r <= |order|
    ensures r < |order| ==> Evictable(slots, order[r])
    ensures forall j :: 0 <= j < r ==> !Evictable(slots, order[j])
  {
    if order == [] then 0
    else if Evictable(slots, order[0]) then 0
    else
      var r := FirstEvictable(order[1..], slots);
      assert forall j :: 1 <= j < r + 1 ==> order[j] == order[1..][j - 1];
      r + 1
  }

  /** Drops the policy's victim that no copy is reading, and hands back its slot. */
  function EvictOne(c: Cache): (Cache, Option<int>) {
    var order := Victims(c.policy);
    var k := FirstEvictable(order, c.slots);
    if k == |order| then (c, None)
    else (Cache(c.capacity, Forget(c.policy, order[k]), c.slots - {order[k]}), Some(c.slots[order[k]].slotIndex))
  }

  /** Retains a slot. The result is a slot the caller must release: the offered one when it is not
      kept, a victim's when the cache is full, nothing otherwise. */
  function Put(c: Cache, h: BlockHash, slotIndex: int): (Cache, Option<int>) {
    if c.capacity == 0 || h in c.slots then (c, Some(slotIndex))
    else
      var (c', freed) := if |c.slots| >= c.capacity then EvictOne(c) else (c, None);
      (Cache(c'.capacity, Admit(c'.policy, h), c'.slots[h := CacheSlot(slotIndex, 0)]), freed)
  }

  function AddCopies(c: Cache, h: BlockHash, n: int): Cache {
    if h in c.slots then c.(slots := c.slots[h := c.slots[h].(copies := c.slots[h].copies + n)]) else c
  }

  function Pin(c: Cache, h: BlockHash): Cache { AddCopies(c, h, 1) }

  function Unpin(c: Cache, h: BlockHash): Cache { AddCopies(c, h, -1) }

  // ---------- Agreement of cache and policy ----------

  predicate Resident(a: Policy, k: BlockHash) {
    match a
    case Lru(od) => k in od
    case Arc(c, p, t1, t2, b1, b2) => k in t1 || k in t2
  }

  ghost predicate PolicyValid(a: Policy) {
    match a
    case Lru(od) => Distinct(od)
    case Arc(c, p, t1, t2, b1, b2) =>
      && c >= 1 && 0 <= p <= c && |b1| <= c && |b2| <= c
      && Distinct(t1) && Distinct(t2) && Distinct(b1) && Distinct(b2)
      && (forall k :: k in t1 ==> k !in t2 && k !in b1 && k !in b2)
      && (forall k :: k in t2 ==> k !in b1 && k !in b2)
      && (forall k :: k in b1 ==> k !in b2)
  }

  /** The policy orders exactly the resident keys, its lists are disjoint and its bounds hold. */
  ghost predicate Agree(c: Cache) {
    && PolicyValid(c.policy)
    && (forall k :: Resident(c.policy, k) <==> k in c.slots)
    && (c.policy.Arc? ==> c.policy.c == Max(1, c.capacity))
  }

  lemma TrimGhostsValid(a: Policy)
    requires a.Arc? && PolicyValid(a.(b1 := [], b2 := []))
    requires Distinct(a.b1) && Distinct(a.b2)
    requires forall k :: k in a.t1 || k in a.t2 ==> k !in a.b1 && k !in a.b2
    requires forall k :: k in a.b1 ==> k !in a.b2
    ensures PolicyValid(TrimGhosts(a))
  {
    SuffixDistinct(a.b1, a.c);
    SuffixDistinct(a.b2, a.c);
  }

  lemma AdmitValid(a: Policy, k: BlockHash)
    requires PolicyValid(a) && !Resident(a, k)
    ensures PolicyValid(Admit(a, k))
    ensures forall x :: Resident(Admit(a, k), x) <==> Resident(a, x) || x == k
  {
    match a
    case Lru(od) => MoveToEndDistinct(od, k);
    case Arc(c, p, t1, t2, b1, b2) =>
      AppendDistinct(t1, k);
      AppendDistinct(t2, k);
      WithoutDistinct(b1, k);
      WithoutDistinct(b2, k);
      TrimGhostsValid(
        if k in b1 then Arc(c, Min(c, p + Delta(|b1|, |b2|)), t1, Append(t2, k), Without(b1, k), b2)
        else if k in b2 then Arc(c, Max(0, p - Delta(|b2|, |b1|)), t1, Append(t2, k), b1, Without(b2, k))
        else Arc(c, p, Append(t1, k), t2, b1, b2));
  }

  lemma TouchValid(a: Policy, k: BlockHash)
    requires PolicyValid(a) && Resident(a, k)
    ensures PolicyValid(Touch(a, k))
    ensures forall x :: Resident(Touch(a, k), x) <==> Resident(a, x)
  {
    match a
    case Lru(od) => MoveToEndDistinct(od, k);
    case Arc(c, p, t1, t2, b1, b2) =>
      WithoutDistinct(t1, k);
      AppendDistinct(t2, k);
      MoveToEndDistinct(t2, k);
  }

  lemma ForgetValid(a: Policy, k: BlockHash)
    requires PolicyValid(a) && Resident(a, k)
    ensures PolicyValid(Forget(a, k))
    ensures forall x :: Resident(Forget(a, k), x) <==> Resident(a, x) && x != k
  {
    match a
    case Lru(od) => WithoutDistinct(od, k);
    case Arc(c, p, t1, t2, b1, b2) =>
      WithoutDistinct(t1, k);
      WithoutDistinct(t2, k);
      AppendDistinct(b1, k);
      AppendDistinct(b2, k);
      TrimGhostsValid(
        if k in t1 then Arc(c, p, Without(t1, k), t2, Append(b1, k), b2)
        else Arc(c, p, t1, Without(t2, k), b1, Append(b2, k)));
  }

  lemma VictimsAreResidents(a: Policy)
    ensures forall k :: k in Victims(a) <==> Resident(a, k)
  {
  }

  lemma GetAgrees(c: Cache, h: BlockHash)
    requires Agree(c)
    ensures Agree(Get(c, h).0)
  {
    if h in c.slots { TouchValid(c.policy, h); }
  }

  lemma PinAgrees(c: Cache, h: BlockHash, n: int)
    requires Agree(c)
    ensures Agree(AddCopies(c, h, n))
  {
  }

  lemma EvictAgrees(c: Cache)
    requires Agree(c)
    ensures Agree(EvictOne(c).0)
  {
    VictimsAreResidents(c.policy);
    var order := Victims(c.policy);
    var k := FirstEvictable(order, c.slots);
    if k < |order| { ForgetValid(c.policy, order[k]); }
  }

  lemma PutAgrees(c: Cache, h: BlockHash, slotIndex: int)
    requires Agree(c)
    ensures Agree(Put(c, h, slotIndex).0)
  {
    if c.capacity > 0 && h !in c.slots {
      EvictAgrees(c);
      var c' := if |c.slots| >= c.capacity then EvictOne(c).0 else c;
      AdmitValid(c'.policy, h);
    }
  }

  /** Nothing can be evicted exactly when every resident is being copied from. */
  lemma EvictNoneIffAllPinned(c: Cache)
    requires Agree(c)
    ensures EvictOne(c).1.None? <==> forall h :: h in c.slots ==> c.slots[h].copies > 0
    ensures EvictOne(c).1.None? ==> EvictOne(c).0 == c
  {
    VictimsAreResidents(c.policy);
  }

  /** An eviction that yields nothing changes nothing. */
  lemma EvictNoneKeeps(c: Cache)
    ensures EvictOne(c).1.None? ==> EvictOne(c).0 == c
  {
  }

  /** An eviction removes one resident that no copy reads, and hands back exactly its slot. */
  lemma EvictRemovesOne(c: Cache) returns (h: BlockHash)
    requires Agree(c) && EvictOne(c).1.Some?
    ensures h in c.slots && c.slots[h].copies <= 0
    ensures EvictOne(c).1 == Some(c.slots[h].slotIndex) && EvictOne(c).0.slots == c.slots - {h}
    ensures |EvictOne(c).0.slots| == |c.slots| - 1
  {
    VictimsAreResidents(c.policy);
    h := Victims(c.policy)[FirstEvictable(Victims(c.policy), c.slots)];
    assert (c.slots - {h}).Keys == c.slots.Keys - {h};
    assert |(c.slots - {h}).Keys| == |c.slots.Keys| - 1;
  }
}
