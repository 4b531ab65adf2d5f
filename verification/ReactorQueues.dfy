/** The reactor's queues per hash, kept in one list each, are first come, first served; and demand that waits
    for a store is queued again when the store has succeeded. */
module ReactorQueues {
  import opened Outcomes
  import opened OrderedKeys
  import opened ReactorState
  import opened ReactorSlots
  import opened Reactor
  import opened ReactorTokens
  import opened ReactorRuns
  import opened ReactorTheorems
  import opened ReactorGuarantees

  /** The elements that belong to `h`, in order. */
  function Of<T>(s: seq<T>, key: T -> Hash, h: Hash): seq<T> {
    if s == [] then [] else Of(s[..|s| - 1], key, h) + if key(s[|s| - 1]) == h then [s[|s| - 1]] else []
  }

  lemma {:induction false} OfConcat<T>(a: seq<T>, b: seq<T>, key: T -> Hash, h: Hash)
    ensures Of(a + b, key, h) == Of(a, key, h) + Of(b, key, h)
  {
    if b == [] {
      assert a + b == a;
    } else {
      assert (a + b)[..|a + b| - 1] == a + b[..|b| - 1];
      OfConcat(a, b[..|b| - 1], key, h);
    }
  }

  lemma {:induction false} OfNone<T>(s: seq<T>, key: T -> Hash, h: Hash)
    requires forall i :: 0 <= i < |s| ==> key(s[i]) != h
    ensures Of(s, key, h) == []
  {
    if s != [] { OfNone(s[..|s| - 1], key, h); }
  }

  lemma OfOne<T>(e: T, key: T -> Hash, h: Hash)
    ensures Of([e], key, h) == if key(e) == h then [e] else []
  {
    assert [e][..0] == [];
  }

  /** Taking out the first element of a hash takes the head of its queue and leaves all other queues alone. */
  lemma TakesHead<T>(s: seq<T>, key: T -> Hash, k: nat, h: Hash)
    requires k < |s| && forall i :: 0 <= i < k ==> key(s[i]) != key(s[k])
    ensures Of(s, key, h) == (if key(s[k]) == h then [s[k]] else []) + Of(RemoveAt(s, k), key, h)
  {
    hide Of;
    assert s == s[..k] + ([s[k]] + s[k + 1..]);
    OfConcat(s[..k], [s[k]] + s[k + 1..], key, h);
    OfConcat([s[k]], s[k + 1..], key, h);
    OfConcat(s[..k], s[k + 1..], key, h);
    OfOne(s[k], key, h);
    if key(s[k]) == h { OfNone(s[..k], key, h); }
  }

  // ---------- Files waiting for a preload ----------

  function WaitKey(): FileRef -> Hash { (f: FileRef) => f.hash }

  /** The file that has waited longest for the hash is served; all others keep their places. */
  lemma ServesLongestWaiting(s: State, h: Hash)
    requires HasWaiter(s, h)
    ensures var (s', f) := PopWaiter(s, h);
      && f.Some? && Of(s.waiters, WaitKey(), h) == [f.value] + Of(s'.waiters, WaitKey(), h)
      && (forall g: Hash :: g != h ==> Of(s'.waiters, WaitKey(), g) == Of(s.waiters, WaitKey(), g))
  {
    hide Of;
    var k := WaiterIndex(s.waiters, h);
    TakesHead(s.waiters, WaitKey(), k, h);
    forall g: Hash | g != h ensures Of(RemoveAt(s.waiters, k), WaitKey(), g) == Of(s.waiters, WaitKey(), g) {
      TakesHead(s.waiters, WaitKey(), k, g);
    }
  }

  // ---------- Private preload copies ----------

  function CopyKey(): Staged -> Hash { (e: Staged) => e.info.hash }

  lemma {:induction false} EndIsBehind(ps: seq<Staged>, h: Hash)
    ensures forall i :: PreloadEnd(ps, h) <= i < |ps| ==> ps[i].info.hash != h
    ensures var k := PreloadEnd(ps, h); k < |ps| ==> k > 0 && ps[k - 1].info.hash == h
    ensures PreloadEnd(ps, h) == |ps| ==> (|ps| > 0 && ps[|ps| - 1].info.hash == h) || forall i :: 0 <= i < |ps| ==> ps[i].info.hash != h
  {
    if ps != [] && ps[|ps| - 1].info.hash != h && PreloadIndex(ps[..|ps| - 1], h) != |ps| - 1 {
      EndIsBehind(ps[..|ps| - 1], h);
    }
  }

  /** A new copy goes behind the copies of its hash. */
  lemma PushesBehind(z: Slots, x: Slot, info: Info, h: Hash)
    ensures Of(PreloadPush(z, x, info).preload, CopyKey(), h)
         == Of(z.preload, CopyKey(), h) + if info.hash == h then [Staged(x, info)] else []
  {
    hide Of;
    var ps, k, e := z.preload, PreloadEnd(z.preload, info.hash), Staged(x, info);
    EndIsBehind(ps, info.hash);
    hide PreloadEnd;
    assert ps == ps[..k] + ps[k..];
    OfConcat(ps[..k], ps[k..], CopyKey(), h);
    OfConcat(ps[..k] + [e], ps[k..], CopyKey(), h);
    OfConcat(ps[..k], [e], CopyKey(), h);
    OfOne(e, CopyKey(), h);
    if info.hash == h { OfNone(ps[k..], CopyKey(), h); }
  }

  /** The oldest copy of the hash is claimed; the copies of other hashes keep their places. */
  lemma ClaimsOldest(z: Slots, h: Hash)
    requires HasPrivateCopy(z, h)
    ensures var (z', e) := PreloadPop(z, h);
      && e.Some? && Of(z.preload, CopyKey(), h) == [e.value] + Of(z'.preload, CopyKey(), h)
      && (forall g: Hash :: g != h ==> Of(z'.preload, CopyKey(), g) == Of(z.preload, CopyKey(), g))
  {
    hide Of;
    var k := PreloadIndex(z.preload, h);
    TakesHead(z.preload, CopyKey(), k, h);
    forall g: Hash | g != h ensures Of(RemoveAt(z.preload, k), CopyKey(), g) == Of(z.preload, CopyKey(), g) {
      TakesHead(z.preload, CopyKey(), k, g);
    }
  }

  /** Copies of one hash stand together, as in a table of queues. */
  ghost predicate Grouped(ps: seq<Staged>) {
    forall i, j, k :: 0 <= i < j < k < |ps| && ps[i].info.hash == ps[k].info.hash ==> ps[j].info.hash == ps[i].info.hash
  }

  lemma StaysGrouped(z: Slots, x: Slot, info: Info, k: nat)
    requires Grouped(z.preload)
    ensures Grouped(PreloadPush(z, x, info).preload)
    ensures k < |z.preload| ==> Grouped(RemoveAt(z.preload, k))
  {
    EndIsBehind(z.preload, info.hash);
    hide PreloadEnd;
    if k < |z.preload| { RemovedGrouped(z.preload, k); }
    InsertedGrouped(z.preload, PreloadEnd(z.preload, info.hash), Staged(x, info));
  }

  lemma RemovedGrouped(ps: seq<Staged>, k: nat)
    requires Grouped(ps) && k < |ps|
    ensures Grouped(RemoveAt(ps, k))
  {
    var r := RemoveAt(ps, k);
    assert forall i :: 0 <= i < |r| ==> r[i] == ps[if i < k then i else i + 1];
  }

  lemma InsertedGrouped(ps: seq<Staged>, k: nat, e: Staged)
    requires Grouped(ps) && k <= |ps| && (forall i :: k <= i < |ps| ==> ps[i].info.hash != e.info.hash)
    requires k < |ps| ==> k > 0 && ps[k - 1].info.hash == e.info.hash
    requires k == |ps| ==> (|ps| > 0 && ps[|ps| - 1].info.hash == e.info.hash) || forall i :: 0 <= i < |ps| ==> ps[i].info.hash != e.info.hash
    ensures Grouped(ps[..k] + [e] + ps[k..])
  {
    var r := ps[..k] + [e] + ps[k..];
    assert forall i :: 0 <= i < |r| && i != k ==> r[i] == ps[if i < k then i else i - 1];
    forall a, c | 0 <= a < k <= c < |ps| ensures ps[a].info.hash != ps[c].info.hash {
      assert ps[c].info.hash != ps[k - 1].info.hash;
    }
  }

  // ---------- Demand parked on a store ----------

  lemma {:induction false} PushesAll(d: Demand, infos: seq<Info>)
    ensures PendingPushAll(d, infos).pending == d.pending + infos
    ensures forall h: Hash :: Count(PendingPushAll(d, infos).pendingCount, h) == Count(d.pendingCount, h) + |Of(infos, InfoKey(), h)|
    decreases |infos|
  {
    if infos != [] {
      var front, last := infos[..|infos| - 1], infos[|infos| - 1];
      PushesAll(d, front);
      assert d.pending + front + [last] == d.pending + infos;
    }
  }

  function InfoKey(): Info -> Hash { (i: Info) => i.hash }

  /** When the last store of a block has succeeded and its bytes are not in the cache, the demand parked on it
      joins the pending queue: all of it, in order, or with shared preloading one entry that stands for all. */
  lemma ParkedDemandWakes(s: State, h: Hash)
    requires Count(s.demand.storeInflight, h) == 1 && h in s.demand.blocked && s.demand.blocked[h] != []
    requires !(s.Cfg().hasCache && h in s.slots.cache.slots)
    ensures var s' := ReleaseStoreInflight(s, h, true);
      && s'.demand.pending == s.demand.pending + (if s.Cfg().sharePreload then [s.demand.blocked[h][0]] else s.demand.blocked[h])
      && h !in s'.demand.blocked && h !in s'.demand.storeInflight && s'.slots == s.slots
  {
    hide PendingPushAll;
    var d1 := s.demand.(storeInflight := Lower(s.demand.storeInflight, h), blocked := s.demand.blocked - {h});
    PushesAll(d1, s.demand.blocked[h]);
    PushAllFrame(d1, s.demand.blocked[h]);
  }

  lemma {:induction false} PushAllFrame(d: Demand, infos: seq<Info>)
    ensures var r := PendingPushAll(d, infos); r == d.(pending := r.pending, pendingCount := r.pendingCount)
    decreases |infos|
  {
    if infos != [] { PushAllFrame(d, infos[..|infos| - 1]); }
  }

  /** A failed store drops the demand parked on it and queues nothing. */
  lemma FailedStoreDropsDemand(s: State, h: Hash)
    requires Count(s.demand.storeInflight, h) == 1
    ensures var s' := ReleaseStoreInflight(s, h, false);
      s'.demand.pending == s.demand.pending && h !in s'.demand.blocked && h !in s'.demand.storeInflight
  {
  }

  lemma {:induction false} NotOfKeeps(infos: seq<Info>, r: ReqId, info: Info)
    requires info in infos && info.reqId != r
    ensures info in NotOf(infos, r)
  {
    if infos[|infos| - 1] != info { NotOfKeeps(infos[..|infos| - 1], r, info); }
  }

  /** Announcing a store parks, with private preloading, the demand of every other request for a block that was
      known to be missing; what was parked before stays parked. */
  lemma AnnouncedStoreParksDemand(s: State, producer: ReqId, h: Hash, info: Info)
    requires !s.Cfg().sharePreload && h in s.demand.missing && info in s.demand.missing[h] && info.reqId != producer
    ensures var d := AnnounceStore(s, producer, h).demand; h in d.blocked && info in d.blocked[h]
    ensures var d := AnnounceStore(s, producer, h).demand;
      h in s.demand.blocked ==> forall i :: i in s.demand.blocked[h] ==> i in d.blocked[h]
    ensures Count(AnnounceStore(s, producer, h).demand.storeInflight, h) == Count(s.demand.storeInflight, h) + 1
  {
    NotOfKeeps(s.demand.missing[h], producer, info);
    hide NotOf, Without;
  }

  /** What a store's announcement leaves of the demand for a hash, with shared preloading. */
  function DemandLeft(z: Slots, producer: ReqId, h: Hash): int {
    Count(z.refcount, h) - One((producer, h) in z.owned)
  }

  lemma DecrefLeaves(s: State, producer: ReqId, h: Hash)
    requires Reached(s) && s.Cfg().sharePreload
    ensures Count(Decref(s.slots, producer, h).refcount, h) == DemandLeft(s.slots, producer, h)
  {
    hide Reached, Owners, Decref;
    DemandNeverUndercounted(s, producer, h);
    if (producer, h) !in s.slots.owned { NotOwned(s.slots, producer, h); }
  }

  lemma NotOwned(z: Slots, r: ReqId, h: Hash)
    requires (r, h) !in z.owned
    ensures Decref(z, r, h) == z
  {
  }

  /** With shared preloading one demand stands for all that want a missing block, and one for all that wait for
      its store; it is never both. */
  lemma OneMarkPerHash(s: State, h: Hash)
    requires Reached(s) && s.Cfg().sharePreload
    ensures h in s.demand.missing ==> |s.demand.missing[h]| == 1 && h !in s.demand.blocked
    ensures h in s.demand.blocked ==> |s.demand.blocked[h]| == 1
  {
    hide Reached, Inv, Sound;
    ReachedInv(s);
    InvSound(s);
    OneParked(s, multiset{});
  }

  lemma SharedAnnounced(d: Demand, refcount: map<Hash, int>, producer: ReqId, h: Hash)
    requires h in d.missing && |d.missing[h]| == 1 && h !in d.blocked
    ensures var d' := Announced(d, refcount, true, producer, h);
      && h !in d'.missing
      && (h in d'.blocked <==> Count(refcount, h) > 0)
      && (h in d'.blocked ==> d'.blocked[h] == d.missing[h])
      && Count(d'.storeInflight, h) == Count(d.storeInflight, h) + 1
  {
    hide Without;
  }

  /** Announcing a store of a missing block parks the demand for it, as the one mark of its hash, exactly when
      demand is left after the producer's is withdrawn. */
  lemma AnnouncedStoreParksShared(s: State, producer: ReqId, h: Hash)
    requires Reached(s) && s.Cfg().sharePreload && h in s.demand.missing
    ensures var d := AnnounceStore(s, producer, h).demand;
      && h !in d.missing
      && (h in d.blocked <==> DemandLeft(s.slots, producer, h) > 0)
      && (h in d.blocked ==> d.blocked[h] == s.demand.missing[h] && |d.blocked[h]| == 1)
      && Count(d.storeInflight, h) == Count(s.demand.storeInflight, h) + 1
  {
    hide Reached, Decref, DemandLeft, Announced;
    OneMarkPerHash(s, h);
    DecrefLeaves(s, producer, h);
    SharedAnnounced(s.demand, Decref(s.slots, producer, h).refcount, producer, h);
  }
}
