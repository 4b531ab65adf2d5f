/** Preload demand: counters agree with the queues, every waiting file has a preload to wait for, and with
    shared preloading a hash has one entry, one read or one slot. */
module ReactorDemandSafety {
  import opened Outcomes
  import opened OrderedKeys
  import opened ReactorState
  import opened ReactorSlots
  import opened Reactor
  import opened ReactorTokens

  // ---------- Counters ----------

  lemma RaiseCounts(m: map<Hash, int>, h: Hash)
    ensures forall k: Hash :: Count(Raise(m, h), k) == Count(m, k) + if k == h then 1 else 0
  {
  }

  lemma LowerCounts(m: map<Hash, int>, h: Hash)
    requires Count(m, h) > 0
    ensures forall k: Hash :: Count(Lower(m, h), k) == Count(m, k) - if k == h then 1 else 0
    ensures (forall k :: k in m ==> m[k] > 0) ==> forall k :: k in Lower(m, h) ==> Lower(m, h)[k] > 0
  {
  }

  /** `t'` has so many more demand tokens of hash `h` than `t`, and the same of every other hash. */
  ghost predicate Shift(t: multiset<Token>, t': multiset<Token>, h: Hash, pre: int, serve: int, wait: int, pend: int, store: int) {
    && (forall k: Hash :: t'[TPre(k)] == t[TPre(k)] + if k == h then pre else 0)
    && (forall k: Hash :: t'[TServe(k)] == t[TServe(k)] + if k == h then serve else 0)
    && (forall k: Hash :: t'[TWait(k)] == t[TWait(k)] + if k == h then wait else 0)
    && (forall k: Hash :: t'[TPend(k)] == t[TPend(k)] + if k == h then pend else 0)
    && (forall k: Hash :: t'[TStore(k)] == t[TStore(k)] + if k == h then store else 0)
    && t'[TPreAll] == t[TPreAll] + pre && t'[TServing] == t[TServing] + serve
  }

  // ---------- Opening, reading and delivering ----------

  /** A preload of the hash may be opened: with shared preloading nothing else is on its way. */
  ghost predicate MayOpen(z: Slots, d: Demand, t: multiset<Token>, h: Hash) {
    if z.cfg.sharePreload then
      && t[TPend(h)] == Count(d.pendingCancel, h) && t[TPre(h)] == 0 && t[TServe(h)] == 0 && Claims(z, h) == 0
      && h !in d.missing && h !in d.blocked
    else z.cachedTotal + d.inflightTotal + t[TServing] < z.cfg.MaxPreloadSlots()
  }

  lemma InflightAddUnique(z: Slots, d: Demand, t: multiset<Token>, t': multiset<Token>, h: Hash, wait: nat)
    requires Shift(t, t', h, 1, 0, wait, 0, 0)
    requires Unique(z, d, t) && MayOpen(z, d, t, h) && z.cfg.sharePreload && (t[TPend(h)] == 0 || wait > 0)
    ensures Unique(z, InflightAdd(d, h), t')
  {
    hide Raise, Claims;
  }

  lemma InflightAddShift(z: Slots, d: Demand, t: multiset<Token>, t': multiset<Token>, h: Hash)
    requires Shift(t, t', h, 1, 0, 0, 0, 0)
    requires DemandPart(z, d, t) && MayOpen(z, d, t, h) && (z.cfg.sharePreload ==> t[TPend(h)] == 0)
    ensures DemandPart(z, InflightAdd(d, h), t')
  {
    RaiseCounts(d.inflightHashes, h);
    if z.cfg.sharePreload { InflightAddUnique(z, d, t, t', h, 0); }
    hide Raise, Unique, Claims, MissingAgree;
  }

  lemma InflightAddPart(z: Slots, d: Demand, t: multiset<Token>, h: Hash)
    requires DemandPart(z, d, t) && MayOpen(z, d, t, h) && (z.cfg.sharePreload ==> t[TPend(h)] == 0)
    ensures DemandPart(z, InflightAdd(d, h), t + PreTokens(h))
  {
    hide DemandPart, MayOpen, Absent, Lower, Raise;
    assert Shift(t, t + PreTokens(h), h, 1, 0, 0, 0, 0);
    InflightAddShift(z, d, t, t + PreTokens(h), h);
  }

  /** A load opens the preload itself and waits for it. */
  lemma PromoteShift(z: Slots, d: Demand, t: multiset<Token>, t': multiset<Token>, h: Hash)
    requires Shift(t, t', h, 1, 0, 1, 0, 0)
    requires DemandPart(z, d, t) && MayOpen(z, d, t, h) && z.cfg.sharePreload
    ensures DemandPart(z, InflightAdd(d, h), t')
  {
    RaiseCounts(d.inflightHashes, h);
    InflightAddUnique(z, d, t, t', h, 1);
    hide Raise, Unique, Claims, MissingAgree;
  }

  lemma PromotePart(z: Slots, d: Demand, t: multiset<Token>, h: Hash)
    requires DemandPart(z, d, t) && MayOpen(z, d, t, h) && z.cfg.sharePreload
    ensures DemandPart(z, InflightAdd(d, h), t + PreTokens(h) + multiset{TWait(h)})
  {
    hide DemandPart, MayOpen, Absent, Lower, Raise;
    assert Shift(t, t + PreTokens(h) + multiset{TWait(h)}, h, 1, 0, 1, 0, 0);
    PromoteShift(z, d, t, t + PreTokens(h) + multiset{TWait(h)}, h);
  }

  lemma InflightRemoveShift(z: Slots, d: Demand, t: multiset<Token>, t': multiset<Token>, h: Hash)
    requires Shift(t, t', h, -1, 1, 0, 0, 0)
    requires DemandPart(z, d, t) && TPre(h) in t && TPreAll in t
    ensures DemandPart(z, InflightRemove(d, h), t')
    ensures z.cfg.sharePreload && t[TWait(h)] == 0 ==> t[TPend(h)] == 0
  {
    LowerCounts(d.inflightHashes, h);
    hide Lower, Claims, MissingAgree;
  }

  lemma InflightRemovePart(z: Slots, d: Demand, t: multiset<Token>, h: Hash)
    requires DemandPart(z, d, t) && TPre(h) in t && TPreAll in t
    ensures DemandPart(z, InflightRemove(d, h), t - PreTokens(h) + ServeTokens(h))
    ensures z.cfg.sharePreload && t[TWait(h)] == 0 ==> t[TPend(h)] == 0
  {
    hide DemandPart, MayOpen, Absent, Lower, Raise;
    assert Shift(t, t - PreTokens(h) + ServeTokens(h), h, -1, 1, 0, 0, 0);
    InflightRemoveShift(z, d, t, t - PreTokens(h) + ServeTokens(h), h);
  }

  /** The delivery is over and nobody waits for it any more. */
  lemma ServedShift(z: Slots, d: Demand, t: multiset<Token>, t': multiset<Token>, h: Hash)
    requires Shift(t, t', h, 0, -1, 0, 0, 0)
    requires DemandPart(z, d, t) && TServe(h) in t && TServing in t && t[TWait(h)] == 0
    ensures DemandPart(z, d, t')
  {
    hide Claims, MissingAgree;
  }

  lemma ServedPart(z: Slots, d: Demand, t: multiset<Token>, h: Hash)
    requires DemandPart(z, d, t) && TServe(h) in t && TServing in t && t[TWait(h)] == 0
    ensures DemandPart(z, d, t - ServeTokens(h))
  {
    hide DemandPart, MayOpen, Absent, Lower, Raise;
    assert Shift(t, t - ServeTokens(h), h, 0, -1, 0, 0, 0);
    ServedShift(z, d, t, t - ServeTokens(h), h);
  }

  /** A private preload serves one waiting file. */
  lemma ServedOneShift(z: Slots, d: Demand, t: multiset<Token>, t': multiset<Token>, h: Hash)
    requires Shift(t, t', h, 0, -1, -1, 0, 0)
    requires DemandPart(z, d, t) && TServe(h) in t && TServing in t && TWait(h) in t && !z.cfg.sharePreload
    ensures DemandPart(z, d, t')
  {
    hide Claims, MissingAgree;
  }

  lemma ServedOnePart(z: Slots, d: Demand, t: multiset<Token>, h: Hash)
    requires DemandPart(z, d, t) && TServe(h) in t && TServing in t && TWait(h) in t && !z.cfg.sharePreload
    ensures DemandPart(z, d, t - ServeTokens(h) - multiset{TWait(h)})
  {
    hide DemandPart, MayOpen, Absent, Lower, Raise;
    assert Shift(t, t - ServeTokens(h) - multiset{TWait(h)}, h, 0, -1, -1, 0, 0);
    ServedOneShift(z, d, t, t - ServeTokens(h) - multiset{TWait(h)}, h);
  }

  /** A shared preload serves one of the waiting files. */
  lemma ServeSharedShift(z: Slots, d: Demand, t: multiset<Token>, t': multiset<Token>, h: Hash)
    requires Shift(t, t', h, 0, 0, -1, 0, 0)
    requires DemandPart(z, d, t) && TServe(h) in t && TWait(h) in t && z.cfg.sharePreload
    ensures DemandPart(z, d, t')
  {
    assert t[TPre(h)] == 0;
    hide Claims, MissingAgree;
  }

  lemma ServeSharedPart(z: Slots, d: Demand, t: multiset<Token>, h: Hash)
    requires DemandPart(z, d, t) && TServe(h) in t && TWait(h) in t && z.cfg.sharePreload
    ensures DemandPart(z, d, t - multiset{TWait(h)})
  {
    hide DemandPart, MayOpen, Absent, Lower, Raise;
    assert Shift(t, t - multiset{TWait(h)}, h, 0, 0, -1, 0, 0);
    ServeSharedShift(z, d, t, t - multiset{TWait(h)}, h);
  }

  lemma WaitShift(z: Slots, d: Demand, t: multiset<Token>, t': multiset<Token>, h: Hash)
    requires Shift(t, t', h, 0, 0, 1, 0, 0)
    requires DemandPart(z, d, t)
    requires if z.cfg.sharePreload then t[TPre(h)] > 0 else t[TWait(h)] < t[TPre(h)]
    ensures DemandPart(z, d, t')
  {
    hide Claims, MissingAgree;
  }

  lemma WaitPart(z: Slots, d: Demand, t: multiset<Token>, h: Hash)
    requires DemandPart(z, d, t)
    requires if z.cfg.sharePreload then t[TPre(h)] > 0 else t[TWait(h)] < t[TPre(h)]
    ensures DemandPart(z, d, t + multiset{TWait(h)})
  {
    hide DemandPart, MayOpen, Absent, Lower, Raise;
    assert Shift(t, t + multiset{TWait(h)}, h, 0, 0, 1, 0, 0);
    WaitShift(z, d, t, t + multiset{TWait(h)}, h);
  }

  // ---------- The pending queue ----------

  lemma PendingPushShift(z: Slots, d: Demand, t: multiset<Token>, t': multiset<Token>, info: Info)
    requires Shift(t, t', info.hash, 0, 0, 0, 1, 0)
    requires DemandPart(z, d, t)
    requires z.cfg.sharePreload ==> Absent(z, t, info.hash) && info.hash !in d.missing && info.hash !in d.blocked
    ensures DemandPart(z, PendingPush(d, info), t')
  {
    RaiseCounts(d.pendingCount, info.hash);
    hide Raise, Claims, MissingAgree;
  }

  lemma PendingPushPart(z: Slots, d: Demand, t: multiset<Token>, info: Info)
    requires DemandPart(z, d, t)
    requires z.cfg.sharePreload ==> Absent(z, t, info.hash) && info.hash !in d.missing && info.hash !in d.blocked
    ensures DemandPart(z, PendingPush(d, info), t + multiset{TPend(info.hash)})
  {
    hide DemandPart, MayOpen, Absent, Lower, Raise;
    assert Shift(t, t + multiset{TPend(info.hash)}, info.hash, 0, 0, 0, 1, 0);
    PendingPushShift(z, d, t, t + multiset{TPend(info.hash)}, info);
  }

  /** An entry less in the queue, live or cancelled. */
  lemma PopUnique(z: Slots, d: Demand, t: multiset<Token>, d': Demand, t': multiset<Token>, h: Hash)
    requires Unique(z, d, t) && Shift(t, t', h, 0, 0, 0, -1, 0)
    requires d'.missing == d.missing && d'.blocked == d.blocked
    requires forall k: Hash :: Count(d'.pendingCancel, k) >= Count(d.pendingCancel, k) - if k == h then 1 else 0
    ensures Unique(z, d', t')
  {
    hide Claims, Count;
  }

  lemma PendingPopShift(z: Slots, d: Demand, t: multiset<Token>, t': multiset<Token>)
    requires DemandPart(z, d, t) && d.pending != [] && TPend(d.pending[0].hash) in t
    requires Shift(t, t', d.pending[0].hash, 0, 0, 0, -1, 0)
    requires Count(d.pendingCancel, d.pending[0].hash) == 0
    ensures DemandPart(z, PendingPop(d), t')
  {
    hide Lower, Unique, MissingAgree;
    LowerCounts(d.pendingCount, d.pending[0].hash);
    if z.cfg.sharePreload { PopUnique(z, d, t, PendingPop(d), t', d.pending[0].hash); }
  }

  lemma PendingPopPart(z: Slots, d: Demand, t: multiset<Token>)
    requires DemandPart(z, d, t) && d.pending != [] && TPend(d.pending[0].hash) in t
    requires Count(d.pendingCancel, d.pending[0].hash) == 0
    ensures DemandPart(z, PendingPop(d), t - multiset{TPend(d.pending[0].hash)})
  {
    hide DemandPart, MayOpen, Absent, Lower, Raise;
    assert Shift(t, t - multiset{TPend(d.pending[0].hash)}, d.pending[0].hash, 0, 0, 0, -1, 0);
    PendingPopShift(z, d, t, t - multiset{TPend(d.pending[0].hash)});
  }

  lemma DropCancelledShift(z: Slots, d: Demand, t: multiset<Token>, t': multiset<Token>)
    requires DemandPart(z, d, t) && d.pending != [] && TPend(d.pending[0].hash) in t
    requires Shift(t, t', d.pending[0].hash, 0, 0, 0, -1, 0)
    requires Count(d.pendingCancel, d.pending[0].hash) > 0
    ensures DemandPart(z, DropCancelled(d), t')
  {
    LowerCounts(d.pendingCount, d.pending[0].hash);
    LowerCounts(d.pendingCancel, d.pending[0].hash);
    if z.cfg.sharePreload { PopUnique(z, d, t, DropCancelled(d), t', d.pending[0].hash); }
    hide Lower, Unique, MissingAgree;
  }

  lemma DropCancelledPart(z: Slots, d: Demand, t: multiset<Token>)
    requires DemandPart(z, d, t) && d.pending != [] && TPend(d.pending[0].hash) in t
    requires Count(d.pendingCancel, d.pending[0].hash) > 0
    ensures DemandPart(z, DropCancelled(d), t - multiset{TPend(d.pending[0].hash)})
  {
    hide DemandPart, MayOpen, Absent, Lower, Raise;
    assert Shift(t, t - multiset{TPend(d.pending[0].hash)}, d.pending[0].hash, 0, 0, 0, -1, 0);
    DropCancelledShift(z, d, t, t - multiset{TPend(d.pending[0].hash)});
  }

  /** Cancelling leaves nothing live to open twice. */
  lemma CancelPart(z: Slots, d: Demand, t: multiset<Token>, h: Hash)
    requires DemandPart(z, d, t)
    ensures DemandPart(z, CancelOnePending(d, h), t)
    ensures z.cfg.sharePreload ==> t[TPend(h)] == Count(CancelOnePending(d, h).pendingCancel, h)
  {
    RaiseCounts(d.pendingCancel, h);
    hide Raise, Claims, MissingAgree;
  }

  // ---------- Misses and stores ----------

  lemma BlockPart(z: Slots, d: Demand, t: multiset<Token>, h: Hash, infos: seq<Info>)
    requires DemandPart(z, d, t) && h in d.storeInflight && AllFor(infos, h)
    requires z.cfg.sharePreload ==> Absent(z, t, h) && h !in d.missing && h !in d.blocked && |infos| == 1
    ensures DemandPart(z, BlockOnWrite(d, h, infos), t)
  {
    hide Claims, MissingAgree;
  }

  lemma ForgetMissingPart(z: Slots, d: Demand, t: multiset<Token>, h: Hash)
    requires DemandPart(z, d, t)
    ensures DemandPart(z, ForgetMissing(d, h), t)
  {
    hide DemandPart, MissingAgree, Without;
    MissingAgrees(z, d, t);
    OneMissing(z, d, t);
    ForgetAgrees(d, h);
    MissingPart(z, d, t, ForgetMissing(d, h), h);
  }

  lemma ForgetAgrees(d: Demand, h: Hash)
    requires MissingAgree(d.missing, d.missingOrder)
    ensures MissingAgree(ForgetMissing(d, h).missing, ForgetMissing(d, h).missingOrder) && |ForgetMissing(d, h).missingOrder| <= |d.missingOrder|
  {
    WithoutDistinct(d.missingOrder, h);
    hide Distinct;
    assert forall k :: k in ForgetMissing(d, h).missingOrder <==> k in d.missingOrder && k != h;
  }

  lemma {:induction false} ForgetAllMissingPart(z: Slots, d: Demand, t: multiset<Token>, hs: seq<Hash>)
    requires DemandPart(z, d, t)
    ensures DemandPart(z, ForgetAllMissing(d, hs), t)
  {
    hide DemandPart, ForgetMissing;
    if hs != [] {
      ForgetAllMissingPart(z, d, t, hs[..|hs| - 1]);
      ForgetMissingPart(z, ForgetAllMissing(d, hs[..|hs| - 1]), t, hs[|hs| - 1]);
    }
  }

  /** Known misses before the oldest are dropped. */
  lemma {:induction false} TrimAgrees(d: Demand)
    requires MissingAgree(d.missing, d.missingOrder)
    ensures var d' := TrimMissing(d);
      && MissingAgree(d'.missing, d'.missingOrder) && |d'.missingOrder| <= MAX_KNOWN_MISSING
      && (forall h :: h in d'.missing ==> h in d.missing && d'.missing[h] == d.missing[h])
      && d' == d.(missing := d'.missing, missingOrder := d'.missingOrder)
    decreases |d.missingOrder|
  {
    if |d.missingOrder| > MAX_KNOWN_MISSING {
      var d1 := d.(missing := d.missing - {d.missingOrder[0]}, missingOrder := d.missingOrder[1..]);
      assert MissingAgree(d1.missing, d1.missingOrder);
      TrimAgrees(d1);
    }
  }

  lemma AddMissingAgrees(d: Demand, info: Info)
    requires MissingAgree(d.missing, d.missingOrder)
    ensures MissingAgree(AddMissing(d, info).missing, AddMissing(d, info).missingOrder)
  {
    MoveToEndDistinct(d.missingOrder, info.hash);
    hide Distinct, MoveToEnd;
  }

  /** Only the known misses change, and they stay well-formed. */
  lemma MissingPart(z: Slots, d: Demand, t: multiset<Token>, d': Demand, h: Hash)
    requires DemandPart(z, d, t)
    requires d' == d.(missing := d'.missing, missingOrder := d'.missingOrder)
    requires MissingAgree(d'.missing, d'.missingOrder) && |d'.missingOrder| <= MAX_KNOWN_MISSING
    requires forall k :: k in d'.missing ==> k in d.missing || k == h
    requires z.cfg.sharePreload && h in d'.missing ==> Absent(z, t, h) && h !in d.blocked
    requires z.cfg.sharePreload ==> OneMark(d'.missing)
    ensures DemandPart(z, d', t)
  {
    hide Claims, MissingAgree;
  }

  lemma RememberPart(z: Slots, d: Demand, t: multiset<Token>, info: Info)
    requires DemandPart(z, d, t)
    requires z.cfg.sharePreload ==> Absent(z, t, info.hash) && info.hash !in d.blocked && info.hash !in d.missing
    ensures DemandPart(z, RememberMissing(d, info), t)
  {
    hide DemandPart, MissingAgree, TrimMissing, MoveToEnd;
    MissingAgrees(z, d, t);
    OneMissing(z, d, t);
    AddMissingAgrees(d, info);
    TrimAgrees(AddMissing(d, info));
    MissingPart(z, d, t, RememberMissing(d, info), info.hash);
  }

  lemma OneMissing(z: Slots, d: Demand, t: multiset<Token>)
    requires DemandPart(z, d, t)
    ensures z.cfg.sharePreload ==> OneMark(d.missing)
  {
    hide MissingAgree, Absent, Claims;
  }

  lemma MissingAgrees(z: Slots, d: Demand, t: multiset<Token>)
    requires DemandPart(z, d, t)
    ensures MissingAgree(d.missing, d.missingOrder) && |d.missingOrder| <= MAX_KNOWN_MISSING
  {
    hide Distinct;
  }

  /** A further demand joins a hash that is known to be missing. */
  lemma JoinMissingPart(z: Slots, d: Demand, t: multiset<Token>, info: Info)
    requires DemandPart(z, d, t) && info.hash in d.missing && !z.cfg.sharePreload
    ensures DemandPart(z, AddMissing(d, info), t)
  {
    hide DemandPart, MissingAgree, MoveToEnd;
    MissingAgrees(z, d, t);
    AddMissingAgrees(d, info);
    JoinLength(z, d, t, info);
    MissingPart(z, d, t, AddMissing(d, info), info.hash);
  }

  lemma JoinLength(z: Slots, d: Demand, t: multiset<Token>, info: Info)
    requires DemandPart(z, d, t) && info.hash in d.missing
    ensures |MoveToEnd(d.missingOrder, info.hash)| <= MAX_KNOWN_MISSING
  {
    hide Distinct;
  }

  /** Uniqueness sees neither stores nor a hash that stops being parked. */
  lemma UniqueUnseen(z: Slots, d: Demand, t: multiset<Token>, d': Demand, t': multiset<Token>, h: Hash, store: int)
    requires Unique(z, d, t) && Shift(t, t', h, 0, 0, 0, 0, store)
    requires d'.pendingCancel == d.pendingCancel && d'.missing == d.missing
    requires forall k :: k in d'.blocked ==> k in d.blocked && d'.blocked[k] == d.blocked[k]
    ensures Unique(z, d', t')
  {
    hide Claims;
  }

  lemma AnnounceShift(z: Slots, d: Demand, t: multiset<Token>, t': multiset<Token>, h: Hash)
    requires Shift(t, t', h, 0, 0, 0, 0, 1)
    requires DemandPart(z, d, t)
    ensures DemandPart(z, d.(storeInflight := Raise(d.storeInflight, h)), t')
  {
    RaiseCounts(d.storeInflight, h);
    if z.cfg.sharePreload { UniqueUnseen(z, d, t, d.(storeInflight := Raise(d.storeInflight, h)), t', h, 1); }
    hide Unique, MissingAgree;
  }

  lemma AnnouncePart(z: Slots, d: Demand, t: multiset<Token>, h: Hash)
    requires DemandPart(z, d, t)
    ensures DemandPart(z, d.(storeInflight := Raise(d.storeInflight, h)), t + multiset{TStore(h)})
  {
    hide DemandPart, MayOpen, Absent, Lower, Raise;
    assert Shift(t, t + multiset{TStore(h)}, h, 0, 0, 0, 0, 1);
    AnnounceShift(z, d, t, t + multiset{TStore(h)}, h);
  }

  /** Other demand waits for the store that is about to be announced. */
  lemma AnnounceBlockedPart(z: Slots, d: Demand, t: multiset<Token>, h: Hash, infos: seq<Info>)
    requires DemandPart(z, d, t) && AllFor(infos, h)
    requires z.cfg.sharePreload ==> Absent(z, t, h) && h !in d.missing && h !in d.blocked && |infos| == 1
    ensures var d1 := BlockOnWrite(d, h, infos);
      DemandPart(z, d1.(storeInflight := Raise(d1.storeInflight, h)), t + multiset{TStore(h)})
  {
    hide DemandPart, Raise;
    AnnouncePart(z, d, t, h);
    var d2 := d.(storeInflight := Raise(d.storeInflight, h));
    RaiseHas(d.storeInflight, h);
    AbsentStill(z, t, h);
    BlockPart(z, d2, t + multiset{TStore(h)}, h, infos);
  }

  lemma RaiseHas(m: map<Hash, int>, h: Hash)
    ensures h in Raise(m, h)
  {
  }

  lemma AbsentStill(z: Slots, t: multiset<Token>, h: Hash)
    ensures Absent(z, t, h) ==> Absent(z, t + multiset{TStore(h)}, h)
  {
    hide Claims;
  }

  /** One store fewer; with the last one the parked demand goes too. */
  ghost function StoreEnded(d: Demand, h: Hash): Demand {
    var d1 := d.(storeInflight := Lower(d.storeInflight, h));
    if Count(d.storeInflight, h) > 1 then d1 else d1.(blocked := d1.blocked - {h})
  }

  lemma StoreEndedCounts(d: Demand, t: multiset<Token>, t': multiset<Token>, h: Hash)
    requires Shift(t, t', h, 0, 0, 0, 0, -1) && CountsOk(d, t) && TStore(h) in t
    ensures CountsOk(StoreEnded(d, h), t')
  {
    LowerCounts(d.storeInflight, h);
    hide Lower;
  }

  lemma StoreEndedMissing(d: Demand, t: multiset<Token>, h: Hash)
    requires MissingOk(d)
    ensures MissingOk(StoreEnded(d, h))
  {
    hide Distinct;
  }

  lemma StoreEndedShift(z: Slots, d: Demand, t: multiset<Token>, t': multiset<Token>, h: Hash)
    requires Shift(t, t', h, 0, 0, 0, 0, -1)
    requires DemandPart(z, d, t) && TStore(h) in t
    ensures DemandPart(z, StoreEnded(d, h), t')
  {
    hide Unique, MissingOk, CountsOk;
    StoreEndedCounts(d, t, t', h);
    StoreEndedMissing(d, t, h);
    StoreEndedFrame(d, h);
    if z.cfg.sharePreload { UniqueUnseen(z, d, t, StoreEnded(d, h), t', h, -1); }
    hide StoreEnded;
  }

  lemma StoreEndedFrame(d: Demand, h: Hash)
    ensures var d' := StoreEnded(d, h);
      && (forall k :: k in d'.blocked ==> k in d.blocked && d'.blocked[k] == d.blocked[k])
      && d' == d.(storeInflight := d'.storeInflight, blocked := d'.blocked)
  {
  }

  lemma StoreEndedPart(z: Slots, d: Demand, t: multiset<Token>, h: Hash)
    requires DemandPart(z, d, t) && TStore(h) in t
    ensures DemandPart(z, StoreEnded(d, h), t - multiset{TStore(h)})
  {
    hide DemandPart, MayOpen, Absent, Lower, Raise;
    assert Shift(t, t - multiset{TStore(h)}, h, 0, 0, 0, 0, -1);
    StoreEndedShift(z, d, t, t - multiset{TStore(h)}, h);
  }

  // ---------- Claims ----------

  /** The slots' side may lose claims, and demand for hashes that are not claimable. */
  lemma ShrinkPart(z: Slots, d: Demand, t: multiset<Token>, z': Slots)
    requires DemandPart(z, d, t)
    requires z'.cfg == z.cfg && z'.cachedTotal <= z.cachedTotal
    requires forall h: Hash :: Claims(z', h) <= Claims(z, h)
    requires forall h: Hash :: Claims(z', h) > 0 && Count(z.refcount, h) > 0 ==> Count(z'.refcount, h) > 0
    ensures DemandPart(z', d, t)
  {
    hide Claims, MissingAgree;
  }

  /** A finished shared read becomes claimable. */
  lemma InstalledUnique(z: Slots, d: Demand, t: multiset<Token>, t': multiset<Token>, z': Slots, h: Hash)
    requires Shift(t, t', h, 0, -1, 0, 0, 0)
    requires DemandPart(z, d, t) && z.cfg.sharePreload
    requires TServe(h) in t && TServing in t && t[TWait(h)] == 0
    requires z'.cfg == z.cfg && z'.refcount == z.refcount && Count(z.refcount, h) > 0
    requires forall k: Hash :: Claims(z', k) == if k == h then 1 else Claims(z, k)
    ensures Unique(z', d, t')
  {
    hide Claims, CountsOk, MissingOk, WaitersOk;
    CancelledNatural(z, d, t);
  }

  lemma CancelledNatural(z: Slots, d: Demand, t: multiset<Token>)
    requires DemandPart(z, d, t)
    ensures forall k: Hash :: 0 <= Count(d.pendingCancel, k) <= t[TPend(k)]
  {
  }

  lemma InstalledShift(z: Slots, d: Demand, t: multiset<Token>, t': multiset<Token>, z': Slots, h: Hash)
    requires Shift(t, t', h, 0, -1, 0, 0, 0)
    requires DemandPart(z, d, t) && z.cfg.sharePreload
    requires TServe(h) in t && TServing in t && t[TWait(h)] == 0
    requires z'.cfg == z.cfg && z'.refcount == z.refcount && Count(z.refcount, h) > 0
    requires forall k: Hash :: Claims(z', k) == if k == h then 1 else Claims(z, k)
    ensures DemandPart(z', d, t')
  {
    InstalledUnique(z, d, t, t', z', h);
    hide Unique, Claims, MissingAgree;
  }

  lemma InstalledPart(z: Slots, d: Demand, t: multiset<Token>, z': Slots, h: Hash)
    requires DemandPart(z, d, t) && z.cfg.sharePreload
    requires TServe(h) in t && TServing in t && t[TWait(h)] == 0
    requires z'.cfg == z.cfg && z'.refcount == z.refcount && Count(z.refcount, h) > 0
    requires forall k: Hash :: Claims(z', k) == if k == h then 1 else Claims(z, k)
    ensures DemandPart(z', d, t - ServeTokens(h))
  {
    hide DemandPart, MayOpen, Absent, Lower, Raise;
    assert Shift(t, t - ServeTokens(h), h, 0, -1, 0, 0, 0);
    InstalledShift(z, d, t, t - ServeTokens(h), z', h);
  }

  /** A finished private read is kept. */
  lemma KeptShift(z: Slots, d: Demand, t: multiset<Token>, t': multiset<Token>, z': Slots, h: Hash)
    requires Shift(t, t', h, 0, -1, 0, 0, 0)
    requires DemandPart(z, d, t) && !z.cfg.sharePreload
    requires TServe(h) in t && TServing in t && t[TWait(h)] == 0
    requires z'.cfg == z.cfg && z'.cachedTotal == z.cachedTotal + 1
    ensures DemandPart(z', d, t')
  {
    hide Claims, MissingAgree;
  }

  lemma KeptPart(z: Slots, d: Demand, t: multiset<Token>, z': Slots, h: Hash)
    requires DemandPart(z, d, t) && !z.cfg.sharePreload
    requires TServe(h) in t && TServing in t && t[TWait(h)] == 0
    requires z'.cfg == z.cfg && z'.cachedTotal == z.cachedTotal + 1
    ensures DemandPart(z', d, t - ServeTokens(h))
  {
    hide DemandPart, MayOpen, Absent, Lower, Raise;
    assert Shift(t, t - ServeTokens(h), h, 0, -1, 0, 0, 0);
    KeptShift(z, d, t, t - ServeTokens(h), z', h);
  }
}
