/** What the invariant means for the reactor, in every state that any run reaches. */
module ReactorTheorems {
  import opened Outcomes
  import opened OrderedKeys
  import opened ReactorState
  import opened ReactorSlots
  import opened Reactor
  import opened ReactorTokens
  import opened ReactorSlotSafety
  import opened ReactorDemandSafety
  import opened ReactorMoves
  import opened ReactorDemandMoves
  import opened ReactorSafety
  import opened ReactorRuns
  import SC = StagingCache

  /** The state of a reactor some time after it was built, before it is told to stop. */
  ghost predicate Reached(s: State) {
    exists cfg, cache, es :: EmptyCache(cache) && IsRun(Initial(cfg, cache), es) && s == After(Initial(cfg, cache), es)
  }

  lemma ReachedInv(s: State)
    requires Reached(s)
    ensures Inv(s)
  {
    hide Inv, IsRun, After, Initial, EmptyCache;
    var cfg, cache, es :| EmptyCache(cache) && IsRun(Initial(cfg, cache), es) && s == After(Initial(cfg, cache), es);
    Reachable(cfg, cache, es);
  }

  // ---------- Finding tokens ----------

  lemma {:induction false} FlatFind<T>(s: seq<T>, f: T -> multiset<Token>, k: Token) returns (i: nat)
    requires Flat(s, f)[k] > 0
    ensures i < |s| && f(s[i])[k] > 0
  {
    if f(s[|s| - 1])[k] > 0 { i := |s| - 1; } else { i := FlatFind(s[..|s| - 1], f, k); }
  }

  lemma FlatTwo<T>(s: seq<T>, f: T -> multiset<Token>, i: nat, j: nat, k: Token)
    requires i < |s| && j < |s| && i != j && f(s[i])[k] > 0 && f(s[j])[k] > 0
    ensures Flat(s, f)[k] >= 2
  {
    hide Flat;
    if i < j {
      FlatRemove(s, j, f);
      FlatHas(RemoveAt(s, j), i, f);
    } else {
      FlatRemove(s, i, f);
      FlatHas(RemoveAt(s, i), j, f);
    }
  }

  lemma {:induction false} SumFind<K, V>(m: map<K, V>, f: (K, V) -> multiset<Token>, t: Token) returns (k: K)
    requires Sum(m, f)[t] > 0
    ensures k in m && f(k, m[k])[t] > 0
    decreases m
  {
    var j :| j in m && Sum(m, f) == Sum(m - {j}, f) + f(j, m[j]);
    if f(j, m[j])[t] > 0 { k := j; } else { k := SumFind(m - {j}, f, t); }
  }

  lemma SumTwo<K, V>(m: map<K, V>, f: (K, V) -> multiset<Token>, i: K, j: K, t: Token)
    requires i in m && j in m && i != j && f(i, m[i])[t] > 0 && f(j, m[j])[t] > 0
    ensures Sum(m, f)[t] >= 2
  {
    hide Sum;
    SumRemove(m, j, f);
    SumHas(m - {j}, i, f);
  }

  // ---------- One owner per slot ----------

  /** The places a slot can be. */
  datatype Holder =
    | FreeAt(i: nat) | OpAt(ud: nat) | CopyAt(k: nat) | StoreAt(k: nat) | MemberAt(k: nat, m: nat)
    | PrivateAt(k: nat) | SharedAt | CacheAt(h: Hash)

  predicate OpUses(op: Op, x: Slot) {
    match op
    case ReadLoad(_, y) => y == x
    case ReadPreload(_, y) => y == x
    case Write(_, y) => y == x
    case _ => false
  }

  /** Slot `x` is on the free list, the target of a read, the source of a write, being filled by a store's
      copy, owned by a load copy that is queued or under way, a private preload copy, a shared slot object
      (claimable, or kept by its copies), or a cache entry. */
  predicate Holds(s: State, x: Slot, o: Holder) {
    match o
    case FreeAt(i) => i < |s.slots.free| && s.slots.free[i] == x
    case OpAt(ud) => ud in s.ring.inflight && OpUses(s.ring.inflight[ud], x)
    case CopyAt(k) => k < |s.ring.copyReady| && s.ring.copyReady[k].source == Owned && s.ring.copyReady[k].slot == x
    case StoreAt(k) => k < |s.ring.pendingCopies| && s.ring.pendingCopies[k].StoreCopy? && s.ring.pendingCopies[k].slot == x
    case MemberAt(k, m) =>
      && k < |s.ring.pendingCopies| && s.ring.pendingCopies[k].LoadBatch? && m < |s.ring.pendingCopies[k].members|
      && s.ring.pendingCopies[k].members[m].source == Owned && s.ring.pendingCopies[k].members[m].slot == x
    case PrivateAt(k) => k < |s.slots.preload| && s.slots.preload[k].slot == x
    case SharedAt => x in s.slots.shared
    case CacheAt(h) => h in s.slots.cache.slots && s.slots.cache.slots[h].slotIndex == x
  }

  /** The tokens of the collection a holder is in. */
  ghost function Part(s: State, o: Holder): multiset<Token> {
    match o
    case FreeAt(_) => Flat(s.slots.free, BlankTokens)
    case OpAt(_) => Sum(s.ring.inflight, OpTokens)
    case CopyAt(_) => Flat(s.ring.copyReady, CopyTokens)
    case StoreAt(_) => Flat(s.ring.pendingCopies, PendingCopyTokens)
    case MemberAt(_, _) => Flat(s.ring.pendingCopies, PendingCopyTokens)
    case PrivateAt(_) => Flat(s.slots.preload, StagedTokens)
    case SharedAt => Sum(s.slots.shared, SharedTokens)
    case CacheAt(_) => Sum(s.slots.cache.slots, CacheTokens)
  }

  /** Which elements have the token of slot `x`. */
  lemma SlotUses(x: Slot)
    ensures forall y: Slot :: BlankTokens(y)[TSlot(x)] > 0 <==> y == x
    ensures forall ud: nat, op: Op :: OpTokens(ud, op)[TSlot(x)] > 0 <==> OpUses(op, x)
    ensures forall c: LoadCopy :: CopyTokens(c)[TSlot(x)] > 0 <==> c.source == Owned && c.slot == x
    ensures forall e: Staged :: StagedTokens(e)[TSlot(x)] > 0 <==> e.slot == x
    ensures forall y: Slot, sh: SharedSlot :: SharedTokens(y, sh)[TSlot(x)] > 0 <==> y == x
    ensures forall h: Hash, c: SC.CacheSlot :: CacheTokens(h, c)[TSlot(x)] > 0 <==> c.slotIndex == x
    ensures forall c: Copy :: c.StoreCopy? ==> (PendingCopyTokens(c)[TSlot(x)] > 0 <==> c.slot == x)
    ensures forall c: Copy :: c.LoadBatch? ==> PendingCopyTokens(c) == Flat(c.members, CopyTokens)
  {
    hide Flat, BlankTokens, OpTokens, CopyTokens, PendingCopyTokens, StagedTokens, SharedTokens, CacheTokens;
    forall y: Slot ensures BlankTokens(y)[TSlot(x)] > 0 <==> y == x { BlankSlotUses(x, y); }
    forall ud: nat, op: Op { OpSlotUses(x, ud, op); }
    forall c: LoadCopy { CopySlotUses(x, c); }
    forall e: Staged { StagedSlotUses(x, e); }
    forall y: Slot, sh: SharedSlot { SharedSlotUses(x, y, sh); }
    forall h: Hash, c: SC.CacheSlot { CacheSlotUses(x, h, c); }
    forall c: Copy ensures c.StoreCopy? ==> (PendingCopyTokens(c)[TSlot(x)] > 0 <==> c.slot == x) { PendingSlotUses(x, c); }
    forall c: Copy ensures c.LoadBatch? ==> PendingCopyTokens(c) == Flat(c.members, CopyTokens) { PendingSlotUses(x, c); }
  }

  lemma BlankSlotUses(x: Slot, y: Slot)
    ensures BlankTokens(y)[TSlot(x)] > 0 <==> y == x
  {
  }

  lemma OpSlotUses(x: Slot, ud: nat, op: Op)
    ensures OpTokens(ud, op)[TSlot(x)] > 0 <==> OpUses(op, x)
  {
  }

  lemma CopySlotUses(x: Slot, c: LoadCopy)
    ensures CopyTokens(c)[TSlot(x)] > 0 <==> c.source == Owned && c.slot == x
  {
  }

  lemma StagedSlotUses(x: Slot, e: Staged)
    ensures StagedTokens(e)[TSlot(x)] > 0 <==> e.slot == x
  {
  }

  lemma SharedSlotUses(x: Slot, y: Slot, sh: SharedSlot)
    ensures SharedTokens(y, sh)[TSlot(x)] > 0 <==> y == x
  {
  }

  lemma CacheSlotUses(x: Slot, h: Hash, c: SC.CacheSlot)
    ensures CacheTokens(h, c)[TSlot(x)] > 0 <==> c.slotIndex == x
  {
  }

  lemma PendingSlotUses(x: Slot, c: Copy)
    ensures c.StoreCopy? ==> (PendingCopyTokens(c)[TSlot(x)] > 0 <==> c.slot == x)
    ensures c.LoadBatch? ==> PendingCopyTokens(c) == Flat(c.members, CopyTokens)
  {
    hide Flat, CopyTokens;
  }

  lemma PartHasSlot(s: State, x: Slot, o: Holder)
    requires Holds(s, x, o)
    ensures Part(s, o)[TSlot(x)] >= 1
  {
    hide Flat, Sum, BlankTokens, OpTokens, CopyTokens, PendingCopyTokens, StagedTokens, SharedTokens, CacheTokens;
    SlotUses(x);
    match o
    case FreeAt(i) => FlatHas(s.slots.free, i, BlankTokens);
    case OpAt(ud) => SumHas(s.ring.inflight, ud, OpTokens);
    case CopyAt(k) => FlatHas(s.ring.copyReady, k, CopyTokens);
    case StoreAt(k) => FlatHas(s.ring.pendingCopies, k, PendingCopyTokens);
    case MemberAt(k, m) =>
      FlatHas(s.ring.pendingCopies, k, PendingCopyTokens);
      FlatHas(s.ring.pendingCopies[k].members, m, CopyTokens);
    case PrivateAt(k) => FlatHas(s.slots.preload, k, StagedTokens);
    case SharedAt => SumHas(s.slots.shared, x, SharedTokens);
    case CacheAt(h) => SumHas(s.slots.cache.slots, h, CacheTokens);
  }

  predicate SameCollection(o: Holder, p: Holder) {
    || (o.FreeAt? && p.FreeAt?) || (o.OpAt? && p.OpAt?) || (o.CopyAt? && p.CopyAt?)
    || ((o.StoreAt? || o.MemberAt?) && (p.StoreAt? || p.MemberAt?))
    || (o.PrivateAt? && p.PrivateAt?) || (o.SharedAt? && p.SharedAt?) || (o.CacheAt? && p.CacheAt?)
  }

  lemma TwoInPart(s: State, x: Slot, o: Holder, p: Holder)
    requires Holds(s, x, o) && Holds(s, x, p) && o != p && SameCollection(o, p) && !o.StoreAt? && !o.MemberAt?
    ensures Part(s, o)[TSlot(x)] >= 2
  {
    hide Flat, Sum, BlankTokens, OpTokens, CopyTokens, PendingCopyTokens, StagedTokens, SharedTokens, CacheTokens;
    SlotUses(x);
    match o
    case FreeAt(i) => FlatTwo(s.slots.free, BlankTokens, i, p.i, TSlot(x));
    case OpAt(ud) => SumTwo(s.ring.inflight, OpTokens, ud, p.ud, TSlot(x));
    case CopyAt(k) => FlatTwo(s.ring.copyReady, CopyTokens, k, p.k, TSlot(x));
    case PrivateAt(k) => FlatTwo(s.slots.preload, StagedTokens, k, p.k, TSlot(x));
    case CacheAt(h) => SumTwo(s.slots.cache.slots, CacheTokens, h, p.h, TSlot(x));
    case SharedAt =>
  }

  lemma TwoPending(s: State, x: Slot, o: Holder, p: Holder)
    requires Holds(s, x, o) && Holds(s, x, p) && o != p && SameCollection(o, p) && (o.StoreAt? || o.MemberAt?)
    ensures Part(s, o)[TSlot(x)] >= 2
  {
    hide Flat, Sum, BlankTokens, OpTokens, CopyTokens, PendingCopyTokens, StagedTokens, SharedTokens, CacheTokens;
    SlotUses(x);
    PendingHasSlot(s, x, o);
    PendingHasSlot(s, x, p);
    if o.k != p.k {
      FlatTwo(s.ring.pendingCopies, PendingCopyTokens, o.k, p.k, TSlot(x));
    } else {
      FlatHas(s.ring.pendingCopies, o.k, PendingCopyTokens);
      FlatTwo(s.ring.pendingCopies[o.k].members, CopyTokens, o.m, p.m, TSlot(x));
    }
  }

  lemma PendingHasSlot(s: State, x: Slot, o: Holder)
    requires Holds(s, x, o) && (o.StoreAt? || o.MemberAt?)
    ensures PendingCopyTokens(s.ring.pendingCopies[o.k])[TSlot(x)] > 0
  {
    hide Flat, Sum, BlankTokens, OpTokens, CopyTokens, PendingCopyTokens, StagedTokens, SharedTokens, CacheTokens;
    SlotUses(x);
    if o.MemberAt? { FlatHas(s.ring.pendingCopies[o.k].members, o.m, CopyTokens); }
  }

  lemma TwoParts(s: State, k: Token, o: Holder, p: Holder)
    requires !SameCollection(o, p)
    ensures Total(s)[k] >= Part(s, o)[k] + Part(s, p)[k]
  {
    hide Flat, Sum, WorkTotal;
  }

  lemma OnePart(s: State, k: Token, o: Holder)
    ensures Total(s)[k] >= Part(s, o)[k]
  {
    hide Flat, Sum, WorkTotal;
  }

  /** Everything that is not in one of the slot collections has no slot. */
  lemma NoSlotElsewhere(s: State, x: Slot)
    ensures Total(s)[TSlot(x)] == Part(s, FreeAt(0))[TSlot(x)] + Part(s, OpAt(0))[TSlot(x)] + Part(s, CopyAt(0))[TSlot(x)]
      + Part(s, StoreAt(0))[TSlot(x)] + Part(s, PrivateAt(0))[TSlot(x)] + Part(s, SharedAt)[TSlot(x)] + Part(s, CacheAt(0))[TSlot(x)]
  {
    hide Flat, Sum, JobTokens, BlankTokens, OpTokens, CopyTokens, PendingCopyTokens, StagedTokens, SharedTokens, CacheTokens;
    FlatAvoids(s.ring.readyLoad, FileTokens, TSlot(x));
    FlatAvoids(s.ring.readyPreload, ReadyPreloadTokens, TSlot(x));
    forall j: Job ensures JobTokens(j)[TSlot(x)] == 0 { JobHasNoSlot(j, x); }
    FlatAvoids(s.work.jobs, JobTokens, TSlot(x));
    FlatAvoids(s.work.log, EndTokens, TSlot(x));
    FlatAvoids(s.demand.pending, PendTokens, TSlot(x));
    FlatAvoids(s.waiters, WaitTokens, TSlot(x));
  }

  lemma JobHasNoSlot(j: Job, x: Slot)
    ensures JobTokens(j)[TSlot(x)] == 0
  {
    hide Flat;
    if j.isStore && j.next <= |j.hashes| { FlatAvoids(j.hashes[j.next..], StoreTokens, TSlot(x)); }
  }

  lemma FindHolder(s: State, x: Slot) returns (o: Holder)
    requires Total(s)[TSlot(x)] > 0
    ensures Holds(s, x, o)
  {
    hide Total, Flat, Sum, BlankTokens, OpTokens, CopyTokens, PendingCopyTokens, StagedTokens, SharedTokens, CacheTokens;
    SlotUses(x);
    NoSlotElsewhere(s, x);
    var k := TSlot(x);
    if Part(s, FreeAt(0))[k] > 0 {
      var i := FlatFind(s.slots.free, BlankTokens, k);
      o := FreeAt(i);
    } else if Part(s, OpAt(0))[k] > 0 {
      var ud := SumFind(s.ring.inflight, OpTokens, k);
      o := OpAt(ud);
    } else if Part(s, CopyAt(0))[k] > 0 {
      var i := FlatFind(s.ring.copyReady, CopyTokens, k);
      o := CopyAt(i);
    } else if Part(s, StoreAt(0))[k] > 0 {
      o := FindPending(s, x);
    } else if Part(s, PrivateAt(0))[k] > 0 {
      var i := FlatFind(s.slots.preload, StagedTokens, k);
      o := PrivateAt(i);
    } else if Part(s, SharedAt)[k] > 0 {
      var y := SumFind(s.slots.shared, SharedTokens, k);
      o := SharedAt;
    } else {
      var h := SumFind(s.slots.cache.slots, CacheTokens, k);
      o := CacheAt(h);
    }
  }

  lemma FindPending(s: State, x: Slot) returns (o: Holder)
    requires Part(s, StoreAt(0))[TSlot(x)] > 0
    ensures Holds(s, x, o)
  {
    hide Flat, Sum, BlankTokens, OpTokens, CopyTokens, PendingCopyTokens, StagedTokens, SharedTokens, CacheTokens;
    SlotUses(x);
    var i := FlatFind(s.ring.pendingCopies, PendingCopyTokens, TSlot(x));
    if s.ring.pendingCopies[i].StoreCopy? {
      o := StoreAt(i);
    } else {
      var m := FlatFind(s.ring.pendingCopies[i].members, CopyTokens, TSlot(x));
      o := MemberAt(i, m);
    }
  }

  lemma SlotCount(s: State, x: Slot)
    requires Inv(s)
    ensures Total(s)[TSlot(x)] == if 0 <= x < s.Cfg().slotCount then 1 else 0
  {
    hide Total, CacheOk, SharedOk, FilePart, BudgetsOk, DemandPart;
    Nothing(Total(s));
  }

  /** Slot conservation: every staging slot is in exactly one place, and nothing else is anywhere. */
  lemma OneOwner(s: State, x: Slot) returns (o: Holder)
    requires Reached(s) && 0 <= x < s.Cfg().slotCount
    ensures Holds(s, x, o)
    ensures forall p :: Holds(s, x, p) ==> p == o
  {
    hide Inv, Total, Holds, Part, Reached;
    ReachedInv(s);
    SlotCount(s, x);
    o := FindHolder(s, x);
    forall p | Holds(s, x, p) ensures p == o {
      OwnersAgree(s, x, o, p);
    }
  }

  lemma OwnersAgree(s: State, x: Slot, o: Holder, p: Holder)
    requires Holds(s, x, o) && Holds(s, x, p) && Total(s)[TSlot(x)] <= 1
    ensures o == p
  {
    hide Total, Holds, Part;
    if o != p {
      OnePart(s, TSlot(x), o);
      if !SameCollection(o, p) {
        PartHasSlot(s, x, o);
        PartHasSlot(s, x, p);
        TwoParts(s, TSlot(x), o, p);
      } else if o.StoreAt? || o.MemberAt? {
        TwoPending(s, x, o, p);
      } else {
        TwoInPart(s, x, o, p);
      }
    }
  }

  lemma NoStraySlots(s: State, x: Slot, o: Holder)
    requires Reached(s) && Holds(s, x, o)
    ensures 0 <= x < s.Cfg().slotCount
  {
    hide Inv, Total, Holds, Part, Reached;
    ReachedInv(s);
    SlotCount(s, x);
    PartHasSlot(s, x, o);
    OnePart(s, TSlot(x), o);
  }

  // ---------- Copies read the right bytes ----------

  /** `c` is a load copy that is queued (`k` past the end) or in the batch `k` of the copies under way. */
  predicate CopyIn(s: State, c: LoadCopy) {
    || c in s.ring.copyReady
    || (exists k :: 0 <= k < |s.ring.pendingCopies| && s.ring.pendingCopies[k].LoadBatch? && c in s.ring.pendingCopies[k].members)
  }

  lemma CopyTokensIn(s: State, c: LoadCopy)
    requires CopyIn(s, c)
    ensures CopyTokens(c) <= Total(s)
  {
    hide Flat, Sum, CopyTokens, WorkTotal;
    if c in s.ring.copyReady {
      var k :| 0 <= k < |s.ring.copyReady| && s.ring.copyReady[k] == c;
      FlatHas(s.ring.copyReady, k, CopyTokens);
    } else {
      var k :| 0 <= k < |s.ring.pendingCopies| && s.ring.pendingCopies[k].LoadBatch? && c in s.ring.pendingCopies[k].members;
      var ms := s.ring.pendingCopies[k].members;
      var m :| 0 <= m < |ms| && ms[m] == c;
      FlatHas(s.ring.pendingCopies, k, PendingCopyTokens);
      FlatHas(ms, m, CopyTokens);
    }
  }

  /** The slot's owner expects the bytes of `h`. */
  ghost predicate Expects(s: State, x: Slot, h: Hash) { Total(s)[THas(x, h)] > 0 }

  lemma ExpectedBytes(s: State, x: Slot, h: Hash)
    requires Inv(s) && Expects(s, x, h)
    ensures x in s.memory && s.memory[x] == h
    ensures Total(s)[TBlank(x)] == 0
  {
    hide Total, CacheOk, SharedOk, FilePart, BudgetsOk, DemandPart;
    Nothing(Total(s));
  }

  lemma CopyExpects(s: State, c: LoadCopy)
    requires Inv(s) && CopyIn(s, c)
    ensures Expects(s, c.slot, c.file.hash)
  {
    hide Total, SlotsOwned, BytesRight, FilePart, BudgetsOk, DemandPart, CopyIn, SC.Agree;
    CopyTokensIn(s, c);
    Nothing(Total(s));
    var h, x := c.file.hash, c.slot;
    match c.source
    case Owned => assert THas(x, h) in CopyTokens(c);
    case Shared =>
      assert TShared(x, h) in CopyTokens(c);
      SharedExpects(s, x);
    case Cached =>
      assert TPin(h, x) in CopyTokens(c);
      CacheExpects(s, h);
  }

  lemma SharedExpects(s: State, x: Slot)
    requires x in s.slots.shared
    ensures Expects(s, x, s.slots.shared[x].hash)
  {
    hide Flat, Sum, WorkTotal, RingTotal;
    SumHas(s.slots.shared, x, SharedTokens);
  }

  lemma CacheExpects(s: State, h: Hash)
    requires h in s.slots.cache.slots
    ensures Expects(s, s.slots.cache.slots[h].slotIndex, h)
  {
    hide Flat, Sum, WorkTotal, RingTotal;
    SumHas(s.slots.cache.slots, h, CacheTokens);
  }

  /** No one may put other bytes into the slot, and it cannot be handed out. */
  predicate Untouched(s: State, x: Slot) {
    && x !in s.slots.free
    && (forall ud :: ud in s.ring.inflight ==> (s.ring.inflight[ud].ReadLoad? || s.ring.inflight[ud].ReadPreload?) ==> s.ring.inflight[ud].slot != x)
    && (forall k :: 0 <= k < |s.ring.pendingCopies| ==> s.ring.pendingCopies[k].StoreCopy? ==> s.ring.pendingCopies[k].slot != x)
  }

  lemma NotBlank(s: State, x: Slot)
    requires Total(s)[TBlank(x)] == 0
    ensures Untouched(s, x)
  {
    hide Flat, Sum, WorkTotal;
    if x in s.slots.free {
      var i :| 0 <= i < |s.slots.free| && s.slots.free[i] == x;
      FlatHas(s.slots.free, i, BlankTokens);
      assert false;
    }
    forall ud | ud in s.ring.inflight && (s.ring.inflight[ud].ReadLoad? || s.ring.inflight[ud].ReadPreload?)
      ensures s.ring.inflight[ud].slot != x
    {
      SumHas(s.ring.inflight, ud, OpTokens);
    }
    forall k | 0 <= k < |s.ring.pendingCopies| && s.ring.pendingCopies[k].StoreCopy? ensures s.ring.pendingCopies[k].slot != x {
      FlatHas(s.ring.pendingCopies, k, PendingCopyTokens);
    }
  }

  /** A file reference names a file its job has started. */
  lemma LiveFile(s: State, f: FileRef)
    requires Inv(s) && Total(s)[TFile(f)] > 0
    ensures f.job < |s.work.jobs| && f.index < |s.work.jobs[f.job].hashes| && s.work.jobs[f.job].hashes[f.index] == f.hash
  {
    hide Total, SlotPart, BudgetsOk, DemandPart, JobsOk, ActiveOk;
    Nothing(Total(s));
    assert Started(s.work, f);
  }

  /** Every load copy, queued or under way, reads a slot that holds exactly the bytes of its file's hash,
      however they got there, and that is neither free nor being written. */
  lemma CopiesReadTheirBytes(s: State, c: LoadCopy)
    requires Reached(s) && CopyIn(s, c)
    ensures c.slot in s.memory && c.file.job < |s.work.jobs| && c.file.index < |s.work.jobs[c.file.job].hashes|
    ensures s.memory[c.slot] == s.work.jobs[c.file.job].hashes[c.file.index]
    ensures Untouched(s, c.slot)
  {
    hide Inv, Total, CopyIn, Untouched, Reached, Expects;
    ReachedInv(s);
    CopyExpects(s, c);
    ExpectedBytes(s, c.slot, c.file.hash);
    NotBlank(s, c.slot);
    CopyTokensIn(s, c);
    CopyHasFile(c);
    LiveFile(s, c.file);
  }

  lemma CopyHasFile(c: LoadCopy)
    ensures TFile(c.file) in CopyTokens(c)
  {
  }

  /** So do the slots that a store writes to disk, and all that is staged or retained for later. */
  lemma StagedBytes(s: State)
    requires Reached(s)
    ensures forall ud :: ud in s.ring.inflight && s.ring.inflight[ud].Write? ==>
      HoldsBytes(s, s.ring.inflight[ud].slot, s.ring.inflight[ud].file.hash)
    ensures forall h :: h in s.slots.cache.slots ==> HoldsBytes(s, s.slots.cache.slots[h].slotIndex, h)
    ensures forall x :: x in s.slots.shared ==> HoldsBytes(s, x, s.slots.shared[x].hash)
    ensures forall k :: 0 <= k < |s.slots.preload| ==> HoldsBytes(s, s.slots.preload[k].slot, s.slots.preload[k].info.hash)
  {
    hide Inv, Reached, Total, Expects;
    ReachedInv(s);
    forall ud | ud in s.ring.inflight && s.ring.inflight[ud].Write?
      ensures HoldsBytes(s, s.ring.inflight[ud].slot, s.ring.inflight[ud].file.hash)
    {
      WriteExpects(s, ud);
      ExpectedBytes(s, s.ring.inflight[ud].slot, s.ring.inflight[ud].file.hash);
    }
    forall h | h in s.slots.cache.slots ensures HoldsBytes(s, s.slots.cache.slots[h].slotIndex, h) {
      CacheExpects(s, h);
      ExpectedBytes(s, s.slots.cache.slots[h].slotIndex, h);
    }
    forall x | x in s.slots.shared ensures HoldsBytes(s, x, s.slots.shared[x].hash) {
      SharedExpects(s, x);
      ExpectedBytes(s, x, s.slots.shared[x].hash);
    }
    forall k | 0 <= k < |s.slots.preload| ensures HoldsBytes(s, s.slots.preload[k].slot, s.slots.preload[k].info.hash) {
      PrivateExpects(s, k);
      ExpectedBytes(s, s.slots.preload[k].slot, s.slots.preload[k].info.hash);
    }
  }

  predicate HoldsBytes(s: State, x: Slot, h: Hash) { x in s.memory && s.memory[x] == h }

  lemma WriteExpects(s: State, ud: nat)
    requires ud in s.ring.inflight && s.ring.inflight[ud].Write?
    ensures Expects(s, s.ring.inflight[ud].slot, s.ring.inflight[ud].file.hash)
  {
    hide Flat, Sum, WorkTotal, SlotsTotal;
    SumHas(s.ring.inflight, ud, OpTokens);
  }

  lemma PrivateExpects(s: State, k: nat)
    requires k < |s.slots.preload|
    ensures Expects(s, s.slots.preload[k].slot, s.slots.preload[k].info.hash)
  {
    hide Flat, Sum, WorkTotal, RingTotal;
    FlatHas(s.slots.preload, k, StagedTokens);
  }
}
