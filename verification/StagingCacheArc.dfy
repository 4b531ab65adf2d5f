/** How ARC adapts: which list a key goes to, which resident goes first, and which way the target moves, for every
    operation on every cache that agrees with its policy. */
module StagingCacheArc {
  import opened Outcomes
  import opened OrderedKeys
  import opened StagingCache
  import opened StagingCacheRuns

  /** `s'` is `s` with the element `k` taken out, the others in their order. */
  ghost predicate TakenOut(s: seq<BlockHash>, k: BlockHash, s': seq<BlockHash>) {
    exists i :: 0 <= i < |s| && s[i] == k && s' == s[..i] + s[i + 1..]
  }

  lemma WithoutTakesOut(s: seq<BlockHash>, k: BlockHash)
    requires k in s
    ensures TakenOut(s, k, Without(s, k))
  {
    var i := WithoutSplit(s, k);
  }

  /** The ghost list with one more key, cut to its newest `n`. */
  function Remember(ghosts: seq<BlockHash>, k: BlockHash, n: nat): seq<BlockHash> {
    var all := ghosts + [k];
    if |all| <= n then all else all[|all| - n..]
  }

  // ---------- Hits ----------

  /** A hit promotes a key that was used once to the end of T2, and a key of T2 to its end. Ghosts and target stay. */
  lemma ArcHit(c: Cache, h: BlockHash)
    requires Agree(c) && c.policy.Arc? && h in c.slots
    ensures var a, a' := c.policy, Step(c, GetOp(h)).policy;
      && a'.Arc? && a'.c == a.c && a'.p == a.p && a'.b1 == a.b1 && a'.b2 == a.b2
      && (h in a.t1 ==> TakenOut(a.t1, h, a'.t1) && a'.t2 == a.t2 + [h])
      && (h in a.t2 ==> a'.t1 == a.t1 && a'.t2 != [] && a'.t2[|a'.t2| - 1] == h && TakenOut(a.t2, h, a'.t2[..|a'.t2| - 1]))
  {
    var a := c.policy;
    if h in a.t1 { WithoutTakesOut(a.t1, h); } else { WithoutTakesOut(a.t2, h); }
  }

  // ---------- Evictions ----------

  /** `v` is the oldest key of the list that no copy reads. */
  ghost predicate OldestFree(list: seq<BlockHash>, slots: map<BlockHash, CacheSlot>, v: BlockHash) {
    exists i :: 0 <= i < |list| && list[i] == v && Evictable(slots, v) && forall j :: 0 <= j < i ==> !Evictable(slots, list[j])
  }

  predicate NoneFree(list: seq<BlockHash>, slots: map<BlockHash, CacheSlot>) {
    forall i :: 0 <= i < |list| ==> !Evictable(slots, list[i])
  }

  /** The list that should give way, and the other one. */
  function Preferred(a: Policy): (seq<BlockHash>, seq<BlockHash>)
    requires a.Arc?
  {
    if |a.t1| > a.p then (a.t1, a.t2) else (a.t2, a.t1)
  }

  /** The victim is the oldest key that no copy reads of the list that has outgrown its share, or of the other list
      if every key of the first one is being read; it becomes the newest ghost of its own list. */
  lemma ArcVictim(c: Cache) returns (v: BlockHash)
    requires Agree(c) && c.policy.Arc? && EvictOne(c).1.Some?
    ensures var (first, second) := Preferred(c.policy);
      OldestFree(first, c.slots, v) || (NoneFree(first, c.slots) && OldestFree(second, c.slots, v))
    ensures v in c.slots && EvictOne(c).1 == Some(c.slots[v].slotIndex) && EvictOne(c).0.slots == c.slots - {v}
    ensures var a, a' := c.policy, EvictOne(c).0.policy;
      && a'.Arc? && a'.c == a.c && a'.p == a.p
      && (v in a.t1 ==> TakenOut(a.t1, v, a'.t1) && a'.t2 == a.t2 && a'.b1 == Remember(a.b1, v, a.c) && a'.b2 == a.b2)
      && (v !in a.t1 ==> v in a.t2 && a'.t1 == a.t1 && TakenOut(a.t2, v, a'.t2) && a'.b1 == a.b1 && a'.b2 == Remember(a.b2, v, a.c))
  {
    hide Agree, PolicyValid, Forget, Preferred, OldestFree, NoneFree, Resident;
    v := VictimIs(c);
    VictimOrder(c, v);
    ValidNow(c);
    ForgottenArc(c.policy, v);
  }

  lemma ValidNow(c: Cache)
    requires Agree(c)
    ensures PolicyValid(c.policy) && forall k :: Resident(c.policy, k) <==> k in c.slots
  {
    hide PolicyValid, Resident;
  }

  lemma VictimIs(c: Cache) returns (v: BlockHash)
    requires Agree(c) && EvictOne(c).1.Some?
    ensures Resident(c.policy, v) && v in c.slots
    ensures FirstEvictable(Victims(c.policy), c.slots) < |Victims(c.policy)|
    ensures v == Victims(c.policy)[FirstEvictable(Victims(c.policy), c.slots)]
    ensures EvictOne(c) == (Cache(c.capacity, Forget(c.policy, v), c.slots - {v}), Some(c.slots[v].slotIndex))
  {
    hide PolicyValid, Forget, Victims;
    VictimsAreResidents(c.policy);
    v := Victims(c.policy)[FirstEvictable(Victims(c.policy), c.slots)];
  }

  lemma VictimOrder(c: Cache, v: BlockHash)
    requires c.policy.Arc? && FirstEvictable(Victims(c.policy), c.slots) < |Victims(c.policy)|
    requires v == Victims(c.policy)[FirstEvictable(Victims(c.policy), c.slots)]
    ensures var (first, second) := Preferred(c.policy);
      OldestFree(first, c.slots, v) || (NoneFree(first, c.slots) && OldestFree(second, c.slots, v))
  {
    hide Evictable;
    var order := Victims(c.policy);
    var k := FirstEvictable(order, c.slots);
    var (first, second) := Preferred(c.policy);
    hide FirstEvictable;
    assert order == first + second;
    if k < |first| {
      assert forall j :: 0 <= j < k ==> order[j] == first[j];
      assert first[k] == v;
    } else {
      assert forall j :: 0 <= j < |first| ==> order[j] == first[j];
      assert second[k - |first|] == v;
      forall j | 0 <= j < k - |first| ensures !Evictable(c.slots, second[j]) { assert order[|first| + j] == second[j]; }
    }
  }

  lemma ForgottenArc(a: Policy, v: BlockHash)
    requires a.Arc? && PolicyValid(a) && Resident(a, v)
    ensures var a' := Forget(a, v);
      && a'.Arc? && a'.c == a.c && a'.p == a.p
      && (v in a.t1 ==> TakenOut(a.t1, v, a'.t1) && a'.t2 == a.t2 && a'.b1 == Remember(a.b1, v, a.c) && a'.b2 == a.b2)
      && (v !in a.t1 ==> v in a.t2 && a'.t1 == a.t1 && TakenOut(a.t2, v, a'.t2) && a'.b1 == a.b1 && a'.b2 == Remember(a.b2, v, a.c))
  {
    hide Distinct, TakenOut;
    if v in a.t1 { WithoutTakesOut(a.t1, v); } else { WithoutTakesOut(a.t2, v); }
  }

  // ---------- Misses ----------

  /** The cache once room has been made for one more entry, as far as that is possible. */
  function MadeRoom(c: Cache): Cache {
    if |c.slots| >= c.capacity then EvictOne(c).0 else c
  }

  function AtLeastOne(n: int): int { if n >= 1 then n else 1 }

  /** A miss on a key that is remembered in a ghost list, once room has been made: a ghost of T1 raises the target,
      a ghost of T2 lowers it, by the other ghost list's size over this one's and at least one, as far as it can go;
      the key joins T2. Any other key joins T1 and the target stays. */
  lemma ArcMiss(c: Cache, h: BlockHash, slot: int)
    requires Agree(c) && c.policy.Arc? && c.capacity > 0 && h !in c.slots
    ensures var a, a' := MadeRoom(c).policy, Step(c, PutOp(h, slot)).policy;
      && a.Arc? && a'.Arc? && a.p == c.policy.p && a'.c == a.c == c.policy.c && 0 <= a.p <= a.c
      && (h in a.b1 ==>
            && a'.p == Min(a.c, a.p + AtLeastOne(|a.b2| / |a.b1|)) && a'.p >= a.p && (a.p < a.c ==> a'.p > a.p)
            && a'.t1 == a.t1 && a'.t2 == a.t2 + [h] && TakenOut(a.b1, h, a'.b1) && a'.b2 == a.b2)
      && (h in a.b2 ==>
            && a'.p == Max(0, a.p - AtLeastOne(|a.b1| / |a.b2|)) && a'.p <= a.p && (a.p > 0 ==> a'.p < a.p)
            && a'.t1 == a.t1 && a'.t2 == a.t2 + [h] && a'.b1 == a.b1 && TakenOut(a.b2, h, a'.b2))
      && (h !in a.b1 && h !in a.b2 ==> a'.p == a.p && a'.t1 == a.t1 + [h] && a'.t2 == a.t2 && a'.b1 == a.b1 && a'.b2 == a.b2)
  {
    hide Agree, PolicyValid, Admit, Resident, EvictOne, TakenOut, Min, Max, AtLeastOne;
    RoomKeeps(c);
    var e := MadeRoom(c);
    ValidNow(e);
    TargetInRange(e.policy);
    AdmittedArc(e.policy, h);
  }

  lemma TargetInRange(a: Policy)
    requires a.Arc? && PolicyValid(a)
    ensures 0 <= a.p <= a.c
  {
    hide Distinct;
  }

  lemma AdmittedArc(a: Policy, h: BlockHash)
    requires a.Arc? && PolicyValid(a) && !Resident(a, h)
    ensures var a' := Admit(a, h);
      && a'.Arc? && a'.c == a.c
      && (h in a.b1 ==>
            && a'.p == Min(a.c, a.p + AtLeastOne(|a.b2| / |a.b1|)) && a'.p >= a.p && (a.p < a.c ==> a'.p > a.p)
            && a'.t1 == a.t1 && a'.t2 == a.t2 + [h] && TakenOut(a.b1, h, a'.b1) && a'.b2 == a.b2)
      && (h in a.b2 ==>
            && a'.p == Max(0, a.p - AtLeastOne(|a.b1| / |a.b2|)) && a'.p <= a.p && (a.p > 0 ==> a'.p < a.p)
            && a'.t1 == a.t1 && a'.t2 == a.t2 + [h] && a'.b1 == a.b1 && TakenOut(a.b2, h, a'.b2))
      && (h !in a.b1 && h !in a.b2 ==> a'.p == a.p && a'.t1 == a.t1 + [h] && a'.t2 == a.t2 && a'.b1 == a.b1 && a'.b2 == a.b2)
  {
    hide Distinct, TakenOut;
    if h in a.b1 { WithoutTakesOut(a.b1, h); }
    if h in a.b2 { WithoutTakesOut(a.b2, h); }
  }

  lemma RoomKeeps(c: Cache)
    requires Agree(c) && c.policy.Arc?
    ensures var e := MadeRoom(c);
      Agree(e) && e.policy.Arc? && e.policy.p == c.policy.p && e.policy.c == c.policy.c && e.slots.Keys <= c.slots.Keys
  {
    EvictAgrees(c);
    EvictNoneKeeps(c);
    if EvictOne(c).1.Some? { var v := ArcVictim(c); }
  }

  /** A ghost is pushed out by the victim that makes room for it: its list is full and it is the oldest there. */
  ghost predicate CrowdedOut(c: Cache, ghosts: seq<BlockHash>, list: seq<BlockHash>, h: BlockHash)
    requires c.policy.Arc?
  {
    && |c.slots| >= c.capacity && EvictOne(c).1.Some? && |ghosts| == c.policy.c && ghosts != [] && ghosts[0] == h
    && exists v :: v in list && v !in MadeRoom(c).slots
  }

  lemma RememberHas(ghosts: seq<BlockHash>, v: BlockHash, n: nat, h: BlockHash)
    requires n >= 1 && |ghosts| <= n && Distinct(ghosts) && h != v
    ensures h in Remember(ghosts, v, n) <==> h in ghosts && !(|ghosts| == n && ghosts[0] == h)
  {
    var all := ghosts + [v];
    if |all| > n {
      assert all[1..] == ghosts[1..] + [v];
    }
  }

  /** What an eviction leaves of the ghosts, besides its victim. */
  lemma EvictionGhosts(c: Cache, h: BlockHash) returns (v: BlockHash)
    requires Agree(c) && c.policy.Arc? && c.capacity > 0 && h !in c.slots && EvictOne(c).1.Some?
    ensures v in c.slots && EvictOne(c).0.slots == c.slots - {v}
    ensures var a, a' := c.policy, EvictOne(c).0.policy;
      && a'.Arc? && (v in a.t1 <==> v !in a.t2)
      && (h in a'.b1 <==> h in a.b1 && !(v in a.t1 && |a.b1| == a.c && a.b1[0] == h))
      && (h in a'.b2 <==> h in a.b2 && !(v in a.t2 && |a.b2| == a.c && a.b2[0] == h))
  {
    v := ArcVictim(c);
    ValidNow(c);
    hide Agree, EvictOne;
    if v in c.policy.t1 { RememberHas(c.policy.b1, v, c.policy.c, h); } else { RememberHas(c.policy.b2, v, c.policy.c, h); }
  }

  /** The lists hold residents only. */
  lemma ListsAreResident(c: Cache)
    requires Agree(c) && c.policy.Arc?
    ensures forall w :: w in c.policy.t1 || w in c.policy.t2 ==> w in c.slots
  {
    hide PolicyValid;
  }

  /** What is still remembered once room has been made. */
  lemma GhostSurvivesIff(c: Cache, h: BlockHash)
    requires Agree(c) && c.policy.Arc? && c.capacity > 0 && h !in c.slots
    ensures h in MadeRoom(c).policy.b1 <==> h in c.policy.b1 && !CrowdedOut(c, c.policy.b1, c.policy.t1, h)
    ensures h in MadeRoom(c).policy.b2 <==> h in c.policy.b2 && !CrowdedOut(c, c.policy.b2, c.policy.t2, h)
  {
    EvictNoneKeeps(c);
    ListsAreResident(c);
    if |c.slots| >= c.capacity && EvictOne(c).1.Some? {
      var v := EvictionGhosts(c, h);
      hide Agree, EvictOne;
      assert v !in MadeRoom(c).slots;
      assert forall w :: w in c.slots && w != v ==> w in MadeRoom(c).slots;
    }
  }

  /** So a miss on a ghost of T1 raises the target, unless it is at its limit, exactly when the ghost is not crowded
      out by the victim; and a miss on a ghost of T2 lowers it likewise. */
  lemma GhostHitMovesTarget(c: Cache, h: BlockHash, slot: int)
    requires Agree(c) && c.policy.Arc? && c.capacity > 0 && h !in c.slots
    ensures var p, p' := c.policy.p, Step(c, PutOp(h, slot)).policy.p;
      && (p' > p <==> h in c.policy.b1 && !CrowdedOut(c, c.policy.b1, c.policy.t1, h) && p < c.policy.c)
      && (p' < p <==> h in c.policy.b2 && !CrowdedOut(c, c.policy.b2, c.policy.t2, h) && p > 0)
  {
    hide Step, MadeRoom, CrowdedOut, AtLeastOne, TakenOut;
    ArcMiss(c, h, slot);
    GhostSurvivesIff(c, h);
    RoomKeeps(c);
    GhostsApart(MadeRoom(c).policy, h);
  }

  lemma GhostsApart(a: Policy, h: BlockHash)
    requires a.Arc? && PolicyValid(a)
    ensures !(h in a.b1 && h in a.b2)
  {
  }

  /** No other operation moves the target. */
  lemma TargetMovesOnMissOnly(c: Cache, op: CacheOp)
    requires Agree(c) && c.policy.Arc?
    requires op.PutOp? ==> op.h in c.slots || c.capacity == 0
    ensures Step(c, op).policy.Arc? && Step(c, op).policy.p == c.policy.p
  {
    EvictNoneKeeps(c);
    if op.EvictOp? && EvictOne(c).1.Some? { var v := ArcVictim(c); }
  }

  // ---------- A ghost that is crowded out ----------

  /** With one slot no ghost of T1 is ever recognised: key 1 is evicted for key 2, and when it comes back the victim
      that makes room for it takes its place among the ghosts. */
  lemma CrowdedOutExample()
    ensures var c := Run(EmptyArcCache(1), [PutOp(1, 0), PutOp(2, 0)]);
      && Agree(c) && c.policy == Arc(1, 0, [2], [], [1], [])
      && Step(c, PutOp(1, 0)).policy == Arc(1, 0, [1], [], [2], [])
  {
    var c0 := EmptyArcCache(1);
    var ops := [PutOp(1, 0), PutOp(2, 0)];
    RunAgrees(c0, ops);
    assert ops[..1] == [PutOp(1, 0)] && [PutOp(1, 0)][..0] == [];
    var c1 := Cache(1, Arc(1, 0, [1], [], [], []), map[1 := CacheSlot(0, 0)]);
    assert Step(c0, PutOp(1, 0)) == c1;
    SingleReplaced(1, [], 2);
    SingleReplaced(2, [1], 1);
  }

  /** A cache of one slot gives up its only entry for the next one. */
  lemma SingleReplaced(prior: BlockHash, ghosts: seq<BlockHash>, h: BlockHash)
    requires prior != h && (ghosts == [] || ghosts == [h])
    ensures Step(Cache(1, Arc(1, 0, [prior], [], ghosts, []), map[prior := CacheSlot(0, 0)]), PutOp(h, 0))
         == Cache(1, Arc(1, 0, [h], [], [prior], []), map[h := CacheSlot(0, 0)])
  {
    var a, slots := Arc(1, 0, [prior], [], ghosts, []), map[prior := CacheSlot(0, 0)];
    assert Victims(a) == [prior] && Evictable(slots, prior);
    assert Forget(a, prior) == Arc(1, 0, [], [], [prior], []) by {
      var all := ghosts + [prior];
      assert ghosts == [h] ==> all[1..] == [prior];
      assert ghosts == [] ==> all == [prior];
    }
    var e := Cache(1, Arc(1, 0, [], [], [prior], []), map[]);
    assert slots - {prior} == map[];
    assert EvictOne(Cache(1, a, slots)) == (e, Some(0));
    assert Admit(e.policy, h) == Arc(1, 0, [h], [], [prior], []);
  }
}
