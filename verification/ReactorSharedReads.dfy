/** What the end of a shared preload's read means: whom it serves, whose demand is met, and who keeps the slot. */
module ReactorSharedReads {
  import opened Outcomes
  import opened OrderedKeys
  import opened ReactorState
  import opened ReactorSlots
  import opened Reactor
  import opened ReactorFrames
  import opened ReactorTokens
  import opened ReactorSlotSafety
  import opened ReactorDemandSafety
  import opened ReactorMoves
  import opened ReactorDemandMoves
  import opened ReactorSafety
  import opened ReactorRuns
  import opened ReactorTheorems
  import opened ReactorGuarantees
  import opened ReactorQueues
  import opened ReactorBytes
  import opened ReactorCompletions
  import opened ReactorRetention
  import SC = StagingCache

  // ---------- Whose demand is met ----------

  /** The record of who wants what, once the requests of the files have got block `h`. */
  function Met(owned: seq<(ReqId, Hash)>, w: Work, fs: seq<FileRef>, h: Hash): seq<(ReqId, Hash)>
    decreases |fs|
  {
    if fs == [] then owned else Met(Without(owned, (RequestOf(w, fs[0]), h)), w, fs[1..], h)
  }

  /** The object of slot `x`, with `n` more copies. */
  function MoreCopies(shared: map<Slot, SharedSlot>, x: Slot, n: int): map<Slot, SharedSlot> {
    if x in shared then shared[x := shared[x].(copies := shared[x].copies + n)] else shared
  }

  /** The slots once `n` files copy from slot `x` and the record is `owned`. */
  ghost predicate Serving(z: Slots, z': Slots, x: Slot, h: Hash, n: nat, owned: seq<(ReqId, Hash)>) {
    && z' == z.(shared := MoreCopies(z.shared, x, n), owned := owned, refcount := z'.refcount)
    && Count(z'.refcount, h) == Count(z.refcount, h) - (|z.owned| - |owned|)
  }

  lemma ServingNobody(z: Slots, x: Slot, h: Hash)
    ensures Serving(z, z, x, h, 0, z.owned)
  {
    assert MoreCopies(z.shared, x, 0) == z.shared;
  }

  lemma ServingOneMore(a: Slots, b: Slots, c: Slots, x: Slot, h: Hash, n: nat, one: seq<(ReqId, Hash)>, all: seq<(ReqId, Hash)>)
    requires Serving(a, b, x, h, 1, one) && Serving(b, c, x, h, n, all)
    ensures Serving(a, c, x, h, n + 1, all)
  {
    assert MoreCopies(MoreCopies(a.shared, x, 1), x, n) == MoreCopies(a.shared, x, n + 1);
  }

  lemma MetNext(owned: seq<(ReqId, Hash)>, w: Work, fs: seq<FileRef>, h: Hash)
    ensures Met(owned, w, fs, h) == if fs == [] then owned else Met(Without(owned, (RequestOf(w, fs[0]), h)), w, fs[1..], h)
  {
  }

  /** Withdrawing a demand for a hash that nobody can claim. */
  lemma DecrefCounts(s: State, held: multiset<Token>, r: ReqId, h: Hash)
    requires Sound(s, held) && s.Cfg().sharePreload && Claims(s.slots, h) == 0
    ensures var z' := Decref(s.slots, r, h);
      && z' == s.slots.(owned := Without(s.slots.owned, (r, h)), refcount := z'.refcount)
      && Count(z'.refcount, h) == Count(s.slots.refcount, h) - (|s.slots.owned| - |z'.owned|)
  {
    hide Sound, Claims, Decref, Withdrawn, Owners, DemandCounted, Without;
    DecrefUnclaimed(s, held, r, h);
    if (r, h) in s.slots.owned {
      CountedIn(s, held);
      WithdrawnCounts(s.slots.owned, s.slots.refcount, r, h);
      DecrefWithdraws(s.slots, r, h);
    } else {
      NotOwned(s.slots, r, h);
    }
  }

  lemma OneServed(s: State, h: Hash, x: Slot)
    requires Sound(s, multiset{THandle(x)} + ServeTokens(h)) && s.Cfg().sharePreload && Delivering(s.slots, h, x) && HasWaiter(s, h)
    ensures var f := PopWaiter(s, h).1.value;
      Serving(s.slots, Served(s, h, x).slots, x, h, 1, Without(s.slots.owned, (RequestOf(s.work, f), h)))
  {
    hide Sound, WaitTokens, FileTokens, HasWaiter, PopWaiter, Decref, ServeTokens, CopyTokens, Claims, Without;
    PopWaiterIs(s, h);
    var s3 := s.(slots := AddCopies(s.slots, x, 1));
    ClaimsOfCopies(s, h, x);
    var f := PopWaiter(s, h).1.value;
    WithdrawnInServing(s, h, x, f);
    ServedIs(s, h, x);
  }

  lemma ClaimsOfCopies(s: State, h: Hash, x: Slot)
    requires Delivering(s.slots, h, x)
    ensures Claims(AddCopies(s.slots, x, 1), h) == 0
  {
  }

  /** The same withdrawal as in the state where the copy has been queued. */
  lemma WithdrawnInServing(s: State, h: Hash, x: Slot, f: FileRef)
    requires Sound(s, multiset{THandle(x)} + ServeTokens(h)) && s.Cfg().sharePreload && Delivering(s.slots, h, x) && HasWaiter(s, h)
    requires PopWaiter(s, h).1 == Some(f)
    ensures var z, r := AddCopies(s.slots, x, 1), RequestOf(s.work, f);
      var z' := Decref(z, r, h);
      && z' == z.(owned := Without(z.owned, (r, h)), refcount := z'.refcount)
      && Count(z'.refcount, h) == Count(z.refcount, h) - (|z.owned| - |z'.owned|)
  {
    hide Sound, WaitTokens, FileTokens, HasWaiter, PopWaiter, Decref, ServeTokens, CopyTokens, Claims, Without, RequestOf;
    var held := multiset{THandle(x)} + ServeTokens(h);
    PopWaiterKeeps(s, held, h);
    var s1 := PopWaiter(s, h).0;
    PopWaiterIs(s, h);
    AddCopyKeeps(s1, held + WaitTokens(f), x);
    var s2 := s1.(slots := AddCopies(s1.slots, x, 1));
    ClaimsOfCopies(s, h, x);
    DecrefCounts(s2, held + WaitTokens(f) + multiset{TShared(x, h)}, RequestOf(s.work, f), h);
  }

  lemma {:induction false} ServedDemand(s: State, h: Hash, x: Slot)
    requires Sound(s, multiset{THandle(x)} + ServeTokens(h)) && s.Cfg().sharePreload && Delivering(s.slots, h, x)
    ensures var waiting := Waiting(s.waiters, h);
      Serving(s.slots, ServeWaiters(s, h, x).slots, x, h, |waiting|, Met(s.slots.owned, s.work, waiting, h))
    decreases |s.waiters|
  {
    hide Sound, HasWaiter, PopWaiter, Delivering, ServeTokens, ServeWaiters, Served, Serving, Met, Of, Without, RequestOf;
    ServeIs(s, h, x);
    Popped(s, h);
    PopWaiterIs(s, h);
    var waiting := Waiting(s.waiters, h);
    MetNext(s.slots.owned, s.work, waiting, h);
    if HasWaiter(s, h) {
      var s1 := Served(s, h, x);
      OneServed(s, h, x);
      ServeOneKeeps(s, h, x);
      PopWaiterShorter(s, h);
      ServedDemand(s1, h, x);
      ServedWork(s, h, x);
      assert s1.slots.owned == Without(s.slots.owned, (RequestOf(s.work, waiting[0]), h)) by { ServingRecord(s.slots, s1.slots, x, h, 1, Without(s.slots.owned, (RequestOf(s.work, waiting[0]), h))); }
      ServingOneMore(s.slots, s1.slots, ServeWaiters(s1, h, x).slots, x, h, |waiting| - 1, s1.slots.owned,
                     Met(s1.slots.owned, s.work, waiting[1..], h));
    } else {
      ServingNobody(s.slots, x, h);
    }
  }

  lemma ServedWork(s: State, h: Hash, x: Slot)
    ensures Served(s, h, x).work == s.work
  {
    hide PopWaiter, Decref, AddCopies;
    PopWaiterIs(s, h);
  }

  lemma ServingRecord(z: Slots, z': Slots, x: Slot, h: Hash, n: nat, owned: seq<(ReqId, Hash)>)
    requires Serving(z, z', x, h, n, owned)
    ensures z'.owned == owned
  {
  }

  // ---------- Who keeps the slot ----------

  /** The slot of the read, once `n` waiting files have been served: claimable if anybody still wants the block; else
      kept by the copies it serves, if any; else given back. */
  ghost predicate Kept(z: Slots, z': Slots, h: Hash, x: Slot, n: nat, owned: seq<(ReqId, Hash)>) {
    var left := Count(z.refcount, h) - (|z.owned| - |owned|);
    var z1 := z.(owned := owned, refcount := z'.refcount);
    && Count(z'.refcount, h) == left && Claimable(z', h) == (if left > 0 then Some(x) else None)
    && (if left > 0 then
          z' == z1.(shared := z.shared[x := SharedSlot(h, n, true)], sharedCached := z.sharedCached + [x], cachedTotal := z.cachedTotal + 1)
        else if n > 0 then z' == z1.(shared := z.shared[x := SharedSlot(h, n, false)])
        else GivenBack(z1, z', h, x))
  }

  lemma NothingClaimable(z: Slots, h: Hash)
    requires Claims(z, h) == 0
    ensures Claimable(z, h) == None
  {
    ClaimableIsCached(z, h);
  }

  lemma ClaimableIsCached(z: Slots, h: Hash)
    ensures Claimable(z, h).Some? ==> Claims(z, h) == 1
  {
    assert z.sharedCached[0..] == z.sharedCached;
    var r := Claimable(z, h);
    if r.Some? {
      var x: Slot := r.value;
      assert x in z.sharedCached;
      assert x in z.shared;
      assert z.shared[x].hash == h;
      assert IsCached(z, h);
    }
  }

  lemma {:induction false} ClaimsNewest(cached: seq<Slot>, shared: map<Slot, SharedSlot>, h: Hash, x: Slot, k: nat)
    requires k <= |cached| && x in shared && shared[x].hash == h
    requires forall i :: k <= i < |cached| ==> !(cached[i] in shared && shared[cached[i]].hash == h)
    ensures ClaimableFrom(cached + [x], shared, h, k) == Some(x)
    decreases |cached| - k
  {
    if k < |cached| { ClaimsNewest(cached, shared, h, x, k + 1); }
  }

  lemma InstalledIs(z: Slots, h: Hash, x: Slot)
    requires Delivering(z, h, x)
    ensures var z' := Install(z, x);
      && z' == z.(shared := z.shared[x := z.shared[x].(cached := true)], sharedCached := z.sharedCached + [x], cachedTotal := z.cachedTotal + 1)
      && Claimable(z', h) == Some(x)
  {
    NothingClaimable(z, h);
    var shared := z.shared[x := z.shared[x].(cached := true)];
    ClaimsNewest(z.sharedCached, shared, h, x, 0);
  }

  lemma LetGo(z: Slots, h: Hash, x: Slot)
    requires x in z.shared && z.shared[x].hash == h && !z.shared[x].cached && SC.Agree(z.cache) && Claims(z, h) == 0
    ensures var z' := MaybeReleaseShared(z, x);
      && Claimable(z', h) == None && z'.refcount == z.refcount
      && (if z.shared[x].copies > 0 then z' == z else GivenBack(z.(shared := z.shared - {x}), z', h, x))
  {
    hide ReleaseOrCache, SC.Agree, GivenBack;
    NothingClaimable(z, h);
    var z1 := z.(shared := z.shared - {x});
    GoesBack(z1, h, x);
    if z.shared[x].copies <= 0 {
      GivenFrame(z1, ReleaseOrCache(z1, h, x), h, x);
      NothingClaimable(ReleaseOrCache(z1, h, x), h);
    }
  }

  lemma GivenFrame(z: Slots, z': Slots, h: Hash, x: Slot)
    requires GivenBack(z, z', h, x)
    ensures z' == z.(cache := z'.cache, free := z'.free)
  {
  }

  /** From the slots before the read's end to those after it. */
  lemma KeptBy(z: Slots, z2: Slots, h: Hash, x: Slot, n: nat, owned: seq<(ReqId, Hash)>)
    requires x !in z.shared && Serving(z.(shared := z.shared[x := SharedSlot(h, 0, false)]), z2, x, h, n, owned)
    requires Delivering(z2, h, x) && SC.Agree(z2.cache)
    ensures Kept(z, KeepOrRelease(z2, h, x), h, x, n, owned)
  {
    hide Install, MaybeReleaseShared, Claimable, GivenBack, SC.Agree, Claims;
    InstalledIs(z2, h, x);
    LetGo(z2, h, x);
    var shared := z.shared[x := SharedSlot(h, 0, false)];
    assert z2.shared == z.shared[x := SharedSlot(h, n, false)];
    assert z.shared[x := SharedSlot(h, n, false)][x := SharedSlot(h, n, true)] == z.shared[x := SharedSlot(h, n, true)];
    assert z.shared[x := SharedSlot(h, n, false)] - {x} == z.shared;
    assert z2.shared - {x} == z.shared;
    assert z2.(shared := z2.shared - {x}) == z.(owned := owned, refcount := z2.refcount);
  }

  // ---------- The end of the read ----------

  /** The state in which the read's slot has been filled and its object made. */
  ghost function JustRead(s: State, ud: nat): State
    requires ud in s.ring.inflight && s.ring.inflight[ud].ReadPreload?
  {
    var info, x := s.ring.inflight[ud].info, s.ring.inflight[ud].slot;
    Arrived(Reaping(s, ud), info.hash, x)
  }

  /** The operation has left the ring. */
  ghost function Reaping(s: State, ud: nat): State
    requires ud in s.ring.inflight && s.ring.inflight[ud].ReadPreload?
  {
    s.(ring := AddData(s.ring.(inflight := s.ring.inflight - {ud}), -1), demand := InflightRemove(s.demand, s.ring.inflight[ud].info.hash))
  }

  lemma ReadyToServe(s: State, ud: nat)
    requires Reached(s) && s.Cfg().sharePreload && ud in s.ring.inflight && s.ring.inflight[ud].ReadPreload?
    ensures var h, x, s1 := s.ring.inflight[ud].info.hash, s.ring.inflight[ud].slot, JustRead(s, ud);
      Sound(s1, multiset{THandle(x)} + ServeTokens(h)) && Delivering(s1.slots, h, x) && s1.Cfg().sharePreload
  {
    hide Reached, Sound, OpTokens, PreTokens, BlankTokens, ServeTokens, HasTokens, InflightRemove, Total, Claims;
    ReachedInv(s);
    InvSound(s);
    var info, x := s.ring.inflight[ud].info, s.ring.inflight[ud].slot;
    var h := info.hash;
    ReapKeeps(s, multiset{}, ud);
    Nothing(OpTokens(ud, s.ring.inflight[ud]));
    OpTokensAre(ud, FileRef(0, 0, 0), info, x);
    var s1 := s.(ring := s.ring.(inflight := s.ring.inflight - {ud}));
    GiveData(s1, PreTokens(h) + BlankTokens(x));
    var s2 := s1.(ring := AddData(s1.ring, -1));
    assert PreTokens(h) + BlankTokens(x) == BlankTokens(x) + PreTokens(h);
    DeliverKeeps(s2, BlankTokens(x), h);
    var s3 := s2.(demand := InflightRemove(s2.demand, h));
    assert s3 == Reaping(s, ud);
    assert BlankTokens(x) + ServeTokens(h) == ServeTokens(h) + BlankTokens(x);
    FillKeeps(s3, ServeTokens(h), x, h);
    var s4 := s3.(memory := s3.memory[x := h]);
    NewSharedKeeps(s4, ServeTokens(h), x, h);
    assert ServeTokens(h) + multiset{THandle(x)} == multiset{THandle(x)} + ServeTokens(h);
    ServingAlone(JustRead(s, ud), multiset{THandle(x)}, h);
  }

  lemma StillAgrees(z: Slots, z': Slots, x: Slot, h: Hash, n: nat, owned: seq<(ReqId, Hash)>)
    requires Serving(z, z', x, h, n, owned)
    ensures z'.cache == z.cache
  {
  }

  lemma NotSharedYet(s: State, ud: nat)
    requires Reached(s) && ud in s.ring.inflight && s.ring.inflight[ud].ReadPreload?
    ensures s.ring.inflight[ud].slot !in s.slots.shared
  {
    hide Reached;
    var x := s.ring.inflight[ud].slot;
    assert Holds(s, x, OpAt(ud));
    NoStraySlots(s, x, OpAt(ud));
    var o := OneOwner(s, x);
    assert x in s.slots.shared ==> Holds(s, x, SharedAt);
  }

  /** A shared preload's read that did what it should: all files waiting for its hash copy from its slot, in order,
      their requests' demand is met, and the slot is claimable exactly if the block is still wanted. */
  lemma SharedReadDelivers(s: State, ud: nat, closed: bool)
    requires Reached(s) && s.Cfg().sharePreload && ud in s.ring.inflight && s.ring.inflight[ud].ReadPreload?
    ensures var h, x, s' := s.ring.inflight[ud].info.hash, s.ring.inflight[ud].slot, Step(s, OpCompletion(ud, true, closed));
      var waiting := Waiting(s.waiters, h);
      && s'.ring == s.ring.(inflight := Reaped(s.ring, ud, closed), nextUd := s.ring.nextUd + 1, dataInflight := s.ring.dataInflight - 1,
                            copyReady := s.ring.copyReady + SharedCopies(waiting, x))
      && s'.work == s.work && s'.memory == s.memory[x := h] && s'.waiters == StillWaiting(s.waiters, h)
      && Kept(s.slots, s'.slots, h, x, |waiting|, Met(s.slots.owned, s.work, waiting, h))
  {
    hide Reached, InflightRemove, ServeWaiters, KeepOrRelease, Of, StillWaiting, SharedCopies, Sound, Delivering, ServeTokens, Met, Serving, Kept, SC.Agree;
    var h, x := s.ring.inflight[ud].info.hash, s.ring.inflight[ud].slot;
    ReadyToServe(s, ud);
    var s1 := JustRead(s, ud);
    AllServed(s1, h, x);
    ServeKeeps(s1, h, x);
    ServeWaitersKeeps(s1, h, x);
    ServedDemand(s1, h, x);
    NotSharedYet(s, ud);
    CacheNow(s);
    var owned := Met(s.slots.owned, s.work, Waiting(s.waiters, h), h);
    StillAgrees(s1.slots, ServeWaiters(s1, h, x).slots, x, h, |Waiting(s.waiters, h)|, owned);
    KeptBy(s.slots, ServeWaiters(s1, h, x).slots, h, x, |Waiting(s.waiters, h)|, owned);
  }

  /** One that did not: every file waiting for its hash fails, in order, and its slot is free and has nobody's bytes. */
  lemma SharedReadFails(s: State, ud: nat, closed: bool)
    requires Reached(s) && s.Cfg().sharePreload && ud in s.ring.inflight && s.ring.inflight[ud].ReadPreload?
    ensures var h, x, s' := s.ring.inflight[ud].info.hash, s.ring.inflight[ud].slot, Step(s, OpCompletion(ud, false, closed));
      && s'.ring == s.ring.(inflight := Reaped(s.ring, ud, closed), nextUd := s.ring.nextUd + 1, dataInflight := s.ring.dataInflight - 1)
      && s'.work.log == s.work.log + Failures(Waiting(s.waiters, h)) && s'.waiters == StillWaiting(s.waiters, h)
      && s'.slots == s.slots.(free := s.slots.free + [x]) && s'.memory == s.memory && x !in s'.memory
  {
    hide Reached, InflightRemove, FailWaiters, Of, StillWaiting, Failures;
    var h := s.ring.inflight[ud].info.hash;
    SlotOfRead(s, ud);
    AllWaitersLive(s);
    AllFail(Reaping(s, ud), h);
  }
}
