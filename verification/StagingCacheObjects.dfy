/** The cache and policy objects of py_kvcache/staging_cache.py, updated in place. Each method is
    proved to carry out the operation of the same name in StagingCache. */
module StagingCacheObjects {
  import opened Outcomes
  import opened OrderedKeys
  import SC = StagingCache

  type BlockHash = SC.BlockHash

  class LruPolicy {
    var od: seq<BlockHash>

    ghost function Value(): SC.Policy reads this { SC.Lru(od) }

    constructor ()
      ensures od == []
    {
      od := [];
    }

    method Admit(key: BlockHash)
      modifies this
      ensures Value() == SC.Admit(old(Value()), key)
    {
      od := Without(od, key);
      od := od + [key];
    }

    method Touch(key: BlockHash)
      modifies this
      ensures Value() == SC.Touch(old(Value()), key)
    {
      if key in od {
        od := MoveToEnd(od, key);
      }
    }

    method Evict(key: BlockHash)
      modifies this
      ensures Value() == SC.Forget(old(Value()), key)
    {
      od := Without(od, key);
    }

    method Victims() returns (order: seq<BlockHash>)
      ensures order == SC.Victims(Value())
    {
      order := od;
    }
  }

  class ArcPolicy {
    const c: nat
    var p: int
    var t1: seq<BlockHash>
    var t2: seq<BlockHash>
    var b1: seq<BlockHash>
    var b2: seq<BlockHash>

    ghost function Value(): SC.Policy reads this { SC.Arc(c, p, t1, t2, b1, b2) }

    constructor (capacity: nat)
      ensures Value() == SC.EmptyArc(capacity)
    {
      c := SC.Max(1, capacity);
      p := 0;
      t1, t2, b1, b2 := [], [], [], [];
    }

    method Admit(key: BlockHash)
      modifies this
      ensures Value() == SC.Admit(old(Value()), key)
    {
      if key in b1 {
        var delta := if b1 == [] then 1 else SC.Max(1, |b2| / SC.Max(1, |b1|));
        p := SC.Min(c, p + delta);
        b1 := Without(b1, key);
        t2 := Append(t2, key);
      } else if key in b2 {
        var delta := if b2 == [] then 1 else SC.Max(1, |b1| / SC.Max(1, |b2|));
        p := SC.Max(0, p - delta);
        b2 := Without(b2, key);
        t2 := Append(t2, key);
      } else {
        t1 := Append(t1, key);
      }
      TrimGhosts();
    }

    method Touch(key: BlockHash)
      modifies this
      ensures Value() == SC.Touch(old(Value()), key)
    {
      if key in t1 {
        t1 := Without(t1, key);
        t2 := Append(t2, key);
      } else if key in t2 {
        t2 := MoveToEnd(t2, key);
      }
    }

    method Evict(key: BlockHash)
      modifies this
      ensures Value() == SC.Forget(old(Value()), key)
    {
      if key in t1 {
        t1 := Without(t1, key);
        b1 := Append(b1, key);
      } else if key in t2 {
        t2 := Without(t2, key);
        b2 := Append(b2, key);
      }
      TrimGhosts();
    }

    method Victims() returns (order: seq<BlockHash>)
      ensures order == SC.Victims(Value())
    {
      var first, second := t2, t1;
      if |t1| > p {
        first, second := t1, t2;
      }
      order := first + second;
    }

    method TrimGhosts()
      modifies this`b1, this`b2
      ensures Value() == SC.TrimGhosts(old(Value()))
    {
      while |b1| > c
        invariant |b1| <= |old(b1)| && b1 == old(b1)[|old(b1)| - |b1|..]
        invariant |b1| < |old(b1)| ==> |b1| >= c
        decreases |b1|
        modifies this`b1
      {
        b1 := b1[1..];
      }
      while |b2| > c
        invariant |b2| <= |old(b2)| && b2 == old(b2)[|old(b2)| - |b2|..]
        invariant |b2| < |old(b2)| ==> |b2| >= c
        decreases |b2|
        modifies this`b2
      {
        b2 := b2[1..];
      }
    }
  }

  class StagingDataCache {
    const capacity: nat
    /** The one policy in use: LRU if this is set, else ARC. */
    const isLru: bool
    const lru: LruPolicy
    const arc: ArcPolicy
    var slots: map<BlockHash, SC.CacheSlot>

    ghost function Value(): SC.Cache reads this, lru, arc {
      SC.Cache(capacity, if isLru then lru.Value() else arc.Value(), slots)
    }

    constructor (isLru: bool, capacity: int)
      ensures Value() == if isLru then SC.EmptyLruCache(SC.Max(0, capacity)) else SC.EmptyArcCache(SC.Max(0, capacity))
      ensures this.isLru == isLru && fresh(lru) && fresh(arc)
    {
      this.capacity := SC.Max(0, capacity);
      this.isLru := isLru;
      lru := new LruPolicy();
      arc := new ArcPolicy(SC.Max(0, capacity));
      slots := map[];
    }

    /** Policy selection by configuration name. */
    static method Make(policy: string, capacity: int) returns (r: Result<StagingDataCache>)
      ensures r.Ok? <==> policy == "lru" || policy == "arc"
      ensures r.Ok? && policy == "lru" ==> r.value.Value() == SC.EmptyLruCache(SC.Max(0, capacity))
      ensures r.Ok? && policy == "arc" ==> r.value.Value() == SC.EmptyArcCache(SC.Max(0, capacity))
    {
      if policy != "lru" && policy != "arc" {
        return Err("unknown staging_cache policy");
      }
      var cache := new StagingDataCache(policy == "lru", capacity);
      r := Ok(cache);
    }

    method Get(blockHash: BlockHash) returns (r: Option<SC.CacheSlot>)
      modifies this, lru, arc
      ensures (Value(), r) == SC.Get(old(Value()), blockHash)
    {
      if blockHash !in slots {
        return None;
      }
      if isLru { lru.Touch(blockHash); } else { arc.Touch(blockHash); }
      r := Some(slots[blockHash]);
    }

    method Put(blockHash: BlockHash, slotIndex: int) returns (r: Option<int>)
      modifies this, lru, arc
      ensures (Value(), r) == SC.Put(old(Value()), blockHash, slotIndex)
    {
      if capacity == 0 {
        return Some(slotIndex);
      }
      if blockHash in slots {
        return Some(slotIndex);
      }
      r := None;
      if |slots| >= capacity {
        r := EvictOne();
      }
      slots := slots[blockHash := SC.CacheSlot(slotIndex, 0)];
      if isLru { lru.Admit(blockHash); } else { arc.Admit(blockHash); }
    }

    method Pin(blockHash: BlockHash)
      requires blockHash in slots
      modifies this
      ensures Value() == SC.Pin(old(Value()), blockHash)
    {
      slots := slots[blockHash := slots[blockHash].(copies := slots[blockHash].copies + 1)];
    }

    method Unpin(blockHash: BlockHash)
      requires blockHash in slots
      modifies this
      ensures Value() == SC.Unpin(old(Value()), blockHash)
    {
      slots := slots[blockHash := slots[blockHash].(copies := slots[blockHash].copies - 1)];
    }

    method EvictOne() returns (r: Option<int>)
      modifies this, lru, arc
      ensures (Value(), r) == SC.EvictOne(old(Value()))
    {
      var order;
      if isLru { order := lru.Victims(); } else { order := arc.Victims(); }
      for k := 0 to |order|
        invariant Value() == old(Value())
        invariant SC.FirstEvictable(order, slots) >= k
      {
        var blockHash := order[k];
        if blockHash !in slots || slots[blockHash].copies > 0 {
          continue;
        }
        r := Some(slots[blockHash].slotIndex);
        slots := slots - {blockHash};
        if isLru { lru.Evict(blockHash); } else { arc.Evict(blockHash); }
        return;
      }
      r := None;
    }
  }
}
