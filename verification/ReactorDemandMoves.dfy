/** The moves of preload demand, waiting files and announced stores, each shown to keep the invariant. */
module ReactorDemandMoves {
  import opened Outcomes
  import opened OrderedKeys
  import opened ReactorState
  import opened ReactorSlots
  import opened Reactor
  import opened ReactorTokens
  import opened ReactorSlotSafety
  import opened ReactorFileSafety
  import opened ReactorDemandSafety
  import opened ReactorMoves
  import SC = StagingCache

  // ---------- Counting the waiting files ----------

  lemma {:induction false} FlatAvoids<T>(s: seq<T>, f: T -> multiset<Token>, k: Token)
    requires forall e: T :: f(e)[k] == 0
    ensures Flat(s, f)[k] == 0
  {
    if s != [] { FlatAvoids(s[..|s| - 1], f, k); }
  }

  lemma {:induction false} SumAvoids<K, V>(m: map<K, V>, f: (K, V) -> multiset<Token>, k: Token)
    requires forall i: K, v: V :: f(i, v)[k] == 0
    ensures Sum(m, f)[k] == 0
    decreases m
  {
    if m != map[] {
      var i :| i in m && Sum(m, f) == Sum(m - {i}, f) + f(i, m[i]);
      SumAvoids(m - {i}, f, k);
    }
  }

  /** Tokens that only a waiting file has, or that no collection has. */
  ghost predicate Elsewhere(k: Token) { k.TWait? || k.TServe? || k.TServing? }

  lemma RingAvoids(g: Ring, k: Token)
    requires Elsewhere(k)
    ensures RingTotal(g)[k] == 0
  {
    hide Flat, Sum, OpTokens, FileTokens, ReadyPreloadTokens, CopyTokens, PendingCopyTokens;
    forall ud: nat, op: Op ensures OpTokens(ud, op)[k] == 0 { OpAvoids(ud, op, k); }
    SumAvoids(g.inflight, OpTokens, k);
    forall f: FileRef ensures FileTokens(f)[k] == 0 { FileAvoids(f, k); }
    FlatAvoids(g.readyLoad, FileTokens, k);
    forall i: Info ensures ReadyPreloadTokens(i)[k] == 0 { PreAvoids(i, k); }
    FlatAvoids(g.readyPreload, ReadyPreloadTokens, k);
    forall c: LoadCopy ensures CopyTokens(c)[k] == 0 { CopyAvoids(c, k); }
    FlatAvoids(g.copyReady, CopyTokens, k);
    forall c: Copy ensures PendingCopyTokens(c)[k] == 0 { PendingCopyAvoids(c, k); }
    FlatAvoids(g.pendingCopies, PendingCopyTokens, k);
  }

  lemma OpAvoids(ud: nat, op: Op, k: Token)
    requires Elsewhere(k)
    ensures OpTokens(ud, op)[k] == 0
  {
    hide OpTokens;
    OpHasIs(ud, op, k);
  }

  lemma FileAvoids(f: FileRef, k: Token)
    requires Elsewhere(k)
    ensures FileTokens(f)[k] == 0
  {
  }

  lemma PreAvoids(info: Info, k: Token)
    requires Elsewhere(k)
    ensures ReadyPreloadTokens(info)[k] == 0
  {
  }

  lemma CopyAvoids(c: LoadCopy, k: Token)
    requires Elsewhere(k)
    ensures CopyTokens(c)[k] == 0
  {
    hide CopyTokens;
    CopyHasIs(c, k);
  }

  lemma PendingCopyAvoids(c: Copy, k: Token)
    requires Elsewhere(k)
    ensures PendingCopyTokens(c)[k] == 0
  {
    if c.LoadBatch? {
      hide Flat, CopyTokens;
      forall e: LoadCopy ensures CopyTokens(e)[k] == 0 { CopyAvoids(e, k); }
      FlatAvoids(c.members, CopyTokens, k);
    }
  }

  lemma WorkAvoids(w: Work, k: Token)
    requires Elsewhere(k)
    ensures WorkTotal(w)[k] == 0
  {
    hide Flat, Sum;
    forall j: Job ensures JobTokens(j)[k] == 0 {
      if j.isStore && j.next <= |j.hashes| { FlatAvoids(j.hashes[j.next..], StoreTokens, k); }
    }
    FlatAvoids(w.jobs, JobTokens, k);
    FlatAvoids(w.log, EndTokens, k);
  }

  lemma OnlyAvoids(kind: Kind, a: multiset<Token>, k: Token)
    requires Only(kind, a) && KindOf(k) != kind
    ensures a[k] == 0
  {
  }

  lemma {:induction false} WaitTokensCount(ws: seq<FileRef>, h: Hash)
    ensures Flat(ws, WaitTokens)[TWait(h)] == WaiterCount(ws, h)
  {
    if ws != [] { WaitTokensCount(ws[..|ws| - 1], h); }
  }

  lemma {:induction false} WaiterCountIndex(ws: seq<FileRef>, h: Hash)
    ensures WaiterCount(ws, h) > 0 <==> exists i :: 0 <= i < |ws| && ws[i].hash == h
  {
    if ws != [] {
      WaiterCountIndex(ws[..|ws| - 1], h);
      assert forall i :: 0 <= i < |ws| - 1 ==> ws[..|ws| - 1][i] == ws[i];
    }
  }

  /** The state's wait tokens are its waiting files. */
  lemma WaitsCounted(s: State, h: Hash)
    ensures Total(s)[TWait(h)] == WaiterCount(s.waiters, h)
    ensures Total(s)[TWait(h)] > 0 <==> HasWaiter(s, h)
  {
    hide Flat, Sum, RingTotal, WorkTotal, SlotsTotal, WaiterCount;
    RingAvoids(s.ring, TWait(h));
    WorkAvoids(s.work, TWait(h));
    SlotsOnly(s.slots);
    OnlyAvoids(SlotKind, SlotsTotal(s.slots), TWait(h));
    FlatAvoids(s.demand.pending, PendTokens, TWait(h));
    WaitTokensCount(s.waiters, h);
    WaiterCountIndex(s.waiters, h);
  }

  /** Deliveries are in progress only within a step. */
  lemma NoneServing(s: State, h: Hash)
    ensures Total(s)[TServe(h)] == 0 && Total(s)[TServing] == 0
  {
    NotServing(s, TServe(h));
    NotServing(s, TServing);
    hide Total;
  }

  lemma NotServing(s: State, k: Token)
    requires k.TServe? || k.TServing?
    ensures Total(s)[k] == 0
  {
    hide Flat, Sum, RingTotal, WorkTotal, SlotsTotal, WaitTokens;
    RingAvoids(s.ring, k);
    WorkAvoids(s.work, k);
    SlotsOnly(s.slots);
    OnlyAvoids(SlotKind, SlotsTotal(s.slots), k);
    FlatAvoids(s.demand.pending, PendTokens, k);
    forall f: FileRef ensures WaitTokens(f)[k] == 0 { WaitAvoids(f, k); }
    FlatAvoids(s.waiters, WaitTokens, k);
  }

  lemma WaitAvoids(f: FileRef, k: Token)
    requires k.TServe? || k.TServing?
    ensures WaitTokens(f)[k] == 0
  {
  }

  // ---------- Opening and delivering ----------

  lemma DemandTotal(s: State, d': Demand)
    requires d'.pending == s.demand.pending
    ensures Total(s.(demand := d')) == Total(s)
  {
  }

  lemma DemandTokensOnly(h: Hash)
    ensures Only(DemandKind, PreTokens(h)) && Only(DemandKind, ServeTokens(h)) && Only(DemandKind, multiset{TWait(h)})
    ensures Only(DemandKind, multiset{TPend(h)}) && Only(DemandKind, multiset{TStore(h)})
    ensures Only(DemandKind, PreTokens(h) + multiset{TWait(h)}) && Only(DemandKind, ServeTokens(h) + multiset{TWait(h)})
  {
  }

  /** The demand changes and tokens come into being, to be held. */
  lemma Mint(s: State, d': Demand, held: multiset<Token>, b: multiset<Token>)
    requires Sound(s, held) && d'.pending == s.demand.pending && Only(DemandKind, b)
    requires DemandPart(s.slots, d', Total(s) + held + b)
    ensures Sound(s.(demand := d'), held + b)
  {
    hide Sound, Total, DemandPart, Only;
    DemandTotal(s, d');
    NoneOnly(DemandKind);
    Nothing(Total(s) + held);
    assert Total(s) + (held + b) == Total(s) + held + b;
    DemandAction(s, d', s.waiters, held, held + b, multiset{}, b);
    assert s.(demand := d', waiters := s.waiters) == s.(demand := d');
  }

  /** The demand changes and held tokens are exchanged for others. */
  lemma Trade(s: State, d': Demand, held: multiset<Token>, a: multiset<Token>, b: multiset<Token>)
    requires Sound(s, held + a) && d'.pending == s.demand.pending && Only(DemandKind, a) && Only(DemandKind, b)
    requires DemandPart(s.slots, d', Total(s) + (held + a) - a + b)
    ensures Sound(s.(demand := d'), held + b)
  {
    hide Sound, Total, DemandPart, Only;
    DemandTotal(s, d');
    assert Total(s) + (held + a) - a + b == Total(s) + (held + b) by {
      assert Total(s) + (held + a) - a == Total(s) + held;
    }
    assert Total(s) + (held + a) - a + b == (Total(s) + (held + a)) - a + b;
    DemandAction(s, d', s.waiters, held + a, held + b, a, b);
    assert s.(demand := d', waiters := s.waiters) == s.(demand := d');
  }

  lemma Spend(s: State, d': Demand, held: multiset<Token>, a: multiset<Token>)
    requires Sound(s, held + a) && d'.pending == s.demand.pending && Only(DemandKind, a)
    requires DemandPart(s.slots, d', Total(s) + (held + a) - a)
    ensures Sound(s.(demand := d'), held)
  {
    hide Sound, Total, DemandPart, Only;
    NoneOnly(DemandKind);
    Nothing(Total(s) + (held + a) - a);
    Nothing(held);
    Trade(s, d', held, a, multiset{});
  }

  lemma DemandNow(s: State, held: multiset<Token>)
    requires Sound(s, held)
    ensures DemandPart(s.slots, s.demand, Total(s) + held)
  {
    hide Total, SlotPart, FilePart, BudgetsOk, DemandPart;
  }

  lemma OpenPreloadKeeps(s: State, held: multiset<Token>, h: Hash)
    requires Sound(s, held) && MayOpen(s.slots, s.demand, Total(s) + held, h)
    requires s.Cfg().sharePreload ==> (Total(s) + held)[TPend(h)] == 0
    ensures Sound(s.(demand := InflightAdd(s.demand, h)), held + PreTokens(h))
  {
    hide Sound, Total, DemandPart, MayOpen, PreTokens, Only;
    DemandNow(s, held);
    InflightAddPart(s.slots, s.demand, Total(s) + held, h);
    DemandTokensOnly(h);
    Mint(s, InflightAdd(s.demand, h), held, PreTokens(h));
  }

  lemma PromoteKeeps(s: State, held: multiset<Token>, h: Hash)
    requires Sound(s, held) && MayOpen(s.slots, s.demand, Total(s) + held, h) && s.Cfg().sharePreload
    ensures Sound(s.(demand := InflightAdd(s.demand, h)), held + (PreTokens(h) + multiset{TWait(h)}))
  {
    hide Sound, Total, DemandPart, MayOpen, PreTokens, Only;
    DemandNow(s, held);
    PromotePart(s.slots, s.demand, Total(s) + held, h);
    DemandTokensOnly(h);
    var t := Total(s) + held;
    assert t + PreTokens(h) + multiset{TWait(h)} == t + (PreTokens(h) + multiset{TWait(h)});
    Mint(s, InflightAdd(s.demand, h), held, PreTokens(h) + multiset{TWait(h)});
  }

  lemma PreThere(t: multiset<Token>, held: multiset<Token>, h: Hash)
    ensures TPre(h) in t + (held + PreTokens(h)) && TPreAll in t + (held + PreTokens(h))
    ensures (t + (held + PreTokens(h)))[TWait(h)] == (t + held)[TWait(h)]
    ensures (t + (held + PreTokens(h)))[TPend(h)] == (t + held)[TPend(h)]
  {
  }

  /** A preload is being completed; with nobody waiting for it, nothing was queued for it either. */
  lemma DeliverKeeps(s: State, held: multiset<Token>, h: Hash)
    requires Sound(s, held + PreTokens(h))
    ensures Sound(s.(demand := InflightRemove(s.demand, h)), held + ServeTokens(h))
    ensures s.Cfg().sharePreload && (Total(s) + held)[TWait(h)] == 0 ==> (Total(s) + held)[TPend(h)] == 0
  {
    hide Sound, Total, DemandPart, PreTokens, ServeTokens, Only;
    DemandNow(s, held + PreTokens(h));
    PreThere(Total(s), held, h);
    InflightRemovePart(s.slots, s.demand, Total(s) + (held + PreTokens(h)), h);
    DemandTokensOnly(h);
    Trade(s, InflightRemove(s.demand, h), held, PreTokens(h), ServeTokens(h));
  }

  lemma ServeThere(t: multiset<Token>, held: multiset<Token>, h: Hash)
    ensures TServe(h) in t + (held + ServeTokens(h)) && TServing in t + (held + ServeTokens(h))
    ensures (t + (held + ServeTokens(h)))[TWait(h)] == (t + held)[TWait(h)]
  {
  }

  lemma ServedKeeps(s: State, held: multiset<Token>, h: Hash)
    requires Sound(s, held + ServeTokens(h)) && (Total(s) + held)[TWait(h)] == 0
    ensures Sound(s, held)
  {
    hide Sound, Total, DemandPart, ServeTokens, Only;
    DemandNow(s, held + ServeTokens(h));
    ServeThere(Total(s), held, h);
    ServedPart(s.slots, s.demand, Total(s) + (held + ServeTokens(h)), h);
    DemandTokensOnly(h);
    Spend(s, s.demand, held, ServeTokens(h));
    assert s.(demand := s.demand) == s;
  }

  lemma ServedOneKeeps(s: State, held: multiset<Token>, h: Hash)
    requires Sound(s, held + (ServeTokens(h) + multiset{TWait(h)})) && !s.Cfg().sharePreload
    ensures Sound(s, held)
  {
    hide Sound, Total, DemandPart, Only;
    var a := ServeTokens(h) + multiset{TWait(h)};
    var t := Total(s) + (held + a);
    DemandNow(s, held + a);
    assert TServe(h) in t && TServing in t && TWait(h) in t;
    ServedOnePart(s.slots, s.demand, t, h);
    DemandTokensOnly(h);
    assert t - ServeTokens(h) - multiset{TWait(h)} == t - a;
    Spend(s, s.demand, held, a);
    assert s.(demand := s.demand) == s;
  }

  lemma ServeSharedKeeps(s: State, held: multiset<Token>, h: Hash)
    requires Sound(s, held + multiset{TWait(h)}) && TServe(h) in held && s.Cfg().sharePreload
    ensures Sound(s, held)
  {
    hide Sound, Total, DemandPart, Only;
    var t := Total(s) + (held + multiset{TWait(h)});
    DemandNow(s, held + multiset{TWait(h)});
    assert TServe(h) in t && TWait(h) in t;
    ServeSharedPart(s.slots, s.demand, t, h);
    DemandTokensOnly(h);
    Spend(s, s.demand, held, multiset{TWait(h)});
    assert s.(demand := s.demand) == s;
  }

  /** A file starts to wait for a preload that is under way. */
  lemma WaitKeeps(s: State, held: multiset<Token>, h: Hash)
    requires Sound(s, held)
    requires if s.Cfg().sharePreload then (Total(s) + held)[TPre(h)] > 0 else (Total(s) + held)[TWait(h)] < (Total(s) + held)[TPre(h)]
    ensures Sound(s, held + multiset{TWait(h)})
  {
    hide Sound, Total, DemandPart, Only;
    DemandNow(s, held);
    WaitPart(s.slots, s.demand, Total(s) + held, h);
    DemandTokensOnly(h);
    Mint(s, s.demand, held, multiset{TWait(h)});
    assert s.(demand := s.demand) == s;
  }

  // ---------- The queue of waiting files ----------

  lemma WaitersSplit(s: State, ws': seq<FileRef>, a: multiset<Token>, b: multiset<Token>)
    requires Flat(s.waiters, WaitTokens) + a == Flat(ws', WaitTokens) + b
    ensures Total(s) + a == Total(s.(waiters := ws')) + b
  {
    hide RingTotal, SlotsTotal, WorkTotal, Flat;
    var r := RingTotal(s.ring) + SlotsTotal(s.slots) + WorkTotal(s.work) + Flat(s.demand.pending, PendTokens);
    assert Total(s) + a == r + (Flat(s.waiters, WaitTokens) + a);
    assert Total(s.(waiters := ws')) + b == r + (Flat(ws', WaitTokens) + b);
  }

  lemma WaitersMove(s: State, ws': seq<FileRef>, held: multiset<Token>, a: multiset<Token>, b: multiset<Token>)
    requires Sound(s, held + a) && Flat(s.waiters, WaitTokens) + a == Flat(ws', WaitTokens) + b
    ensures Sound(s.(waiters := ws'), held + b)
  {
    hide Sound, Total, DemandPart, Only, Flat, WaitTokens;
    WaitersSplit(s, ws', a, b);
    var t := Total(s) + (held + a);
    DemandNow(s, held + a);
    NoneOnly(DemandKind);
    Nothing(t);
    assert t == (Total(s) + a) + held;
    assert Total(s.(waiters := ws')) + (held + b) == (Total(s.(waiters := ws')) + b) + held;
    assert s.(demand := s.demand, waiters := ws') == s.(waiters := ws');
    DemandAction(s, s.demand, ws', held + a, held + b, multiset{}, multiset{});
  }

  lemma PushWaiterKeeps(s: State, held: multiset<Token>, f: FileRef)
    requires Sound(s, held + WaitTokens(f))
    ensures Sound(s.(waiters := s.waiters + [f]), held)
  {
    hide Sound, Flat, WaitTokens;
    FlatAppend(s.waiters, f, WaitTokens);
    Nothing(Flat(s.waiters + [f], WaitTokens));
    Nothing(held);
    WaitersMove(s, s.waiters + [f], held, WaitTokens(f), multiset{});
  }

  /** The first file waiting for the hash stops waiting. */
  lemma PopWaiterKeeps(s: State, held: multiset<Token>, h: Hash)
    requires Sound(s, held) && HasWaiter(s, h)
    ensures var (s', f) := PopWaiter(s, h);
      f.Some? && f.value.hash == h && Sound(s', held + WaitTokens(f.value)) && s' == s.(waiters := s'.waiters)
  {
    hide Sound, Flat, WaitTokens;
    var k := WaiterIndex(s.waiters, h);
    FlatRemove(s.waiters, k, WaitTokens);
    Nothing(Flat(s.waiters, WaitTokens));
    Nothing(held);
    WaitersMove(s, RemoveAt(s.waiters, k), held, multiset{}, WaitTokens(s.waiters[k]));
  }

  // ---------- The pending queue ----------

  lemma PendingSplit(s: State, d': Demand, a: multiset<Token>, b: multiset<Token>)
    requires Flat(s.demand.pending, PendTokens) + b == Flat(d'.pending, PendTokens) + a
    ensures Total(s) + b == Total(s.(demand := d')) + a
  {
    hide RingTotal, SlotsTotal, WorkTotal, Flat;
    var r := RingTotal(s.ring) + SlotsTotal(s.slots) + WorkTotal(s.work) + Flat(s.waiters, WaitTokens);
    assert Total(s) + b == r + (Flat(s.demand.pending, PendTokens) + b);
    assert Total(s.(demand := d')) + a == r + (Flat(d'.pending, PendTokens) + a);
  }

  /** A new entry joins the pending queue. */
  lemma PendingPushKeeps(s: State, held: multiset<Token>, info: Info)
    requires Sound(s, held)
    requires s.Cfg().sharePreload ==> Absent(s.slots, Total(s) + held, info.hash)
    requires s.Cfg().sharePreload ==> info.hash !in s.demand.missing && info.hash !in s.demand.blocked
    ensures Sound(s.(demand := PendingPush(s.demand, info)), held)
  {
    hide Sound, Total, DemandPart, Only, Absent, Flat;
    DemandNow(s, held);
    PendingPushPart(s.slots, s.demand, Total(s) + held, info);
    var d', b := PendingPush(s.demand, info), multiset{TPend(info.hash)};
    DemandTokensOnly(info.hash);
    NoneOnly(DemandKind);
    FlatAppend(s.demand.pending, info, PendTokens);
    Nothing(Flat(d'.pending, PendTokens));
    PendingSplit(s, d', multiset{}, b);
    Nothing(Total(s.(demand := d')));
    Nothing(Total(s) + held);
    assert Total(s.(demand := d')) + held == Total(s) + held + b;
    DemandAction(s, d', s.waiters, held, held, multiset{}, b);
    assert s.(demand := d', waiters := s.waiters) == s.(demand := d');
  }

  lemma PendThere(s: State, held: multiset<Token>)
    requires s.demand.pending != []
    ensures TPend(s.demand.pending[0].hash) in Total(s) + held
  {
    hide RingTotal, SlotsTotal, WorkTotal, Flat;
    FlatPopFirst(s.demand.pending, PendTokens);
    assert TPend(s.demand.pending[0].hash) in PendTokens(s.demand.pending[0]);
  }

  /** The oldest entry leaves the pending queue, with whatever else the demand becomes. */
  lemma PendingShorter(s: State, d': Demand, held: multiset<Token>)
    requires Sound(s, held) && s.demand.pending != [] && d'.pending == s.demand.pending[1..]
    requires DemandPart(s.slots, d', Total(s) + held - multiset{TPend(s.demand.pending[0].hash)})
    ensures Sound(s.(demand := d'), held)
    ensures Total(s) == Total(s.(demand := d')) + multiset{TPend(s.demand.pending[0].hash)}
  {
    hide Sound, Total, DemandPart, Only, Flat;
    var a := multiset{TPend(s.demand.pending[0].hash)};
    DemandTokensOnly(s.demand.pending[0].hash);
    NoneOnly(DemandKind);
    FlatPopFirst(s.demand.pending, PendTokens);
    Nothing(Flat(s.demand.pending, PendTokens));
    PendingSplit(s, d', a, multiset{});
    Nothing(Total(s));
    var total' := Total(s.(demand := d'));
    assert Total(s) == total' + a;
    assert Total(s) + held - a == total' + held by { assert total' + a + held - a == total' + held; }
    Nothing(Total(s) + held - a);
    DemandAction(s, d', s.waiters, held, held, a, multiset{});
    assert s.(demand := d', waiters := s.waiters) == s.(demand := d');
  }

  lemma PendingPopKeeps(s: State, held: multiset<Token>)
    requires Sound(s, held) && s.demand.pending != [] && Count(s.demand.pendingCancel, s.demand.pending[0].hash) == 0
    ensures Sound(s.(demand := PendingPop(s.demand)), held)
    ensures Total(s) == Total(s.(demand := PendingPop(s.demand))) + multiset{TPend(s.demand.pending[0].hash)}
  {
    hide Sound, Total, DemandPart, Flat;
    DemandNow(s, held);
    PendThere(s, held);
    PendingPopPart(s.slots, s.demand, Total(s) + held);
    PendingShorter(s, PendingPop(s.demand), held);
  }

  lemma DropCancelledKeeps(s: State, held: multiset<Token>)
    requires Sound(s, held) && s.demand.pending != [] && Count(s.demand.pendingCancel, s.demand.pending[0].hash) > 0
    ensures Sound(s.(demand := DropCancelled(s.demand)), held)
  {
    hide Sound, Total, DemandPart, Flat;
    DemandNow(s, held);
    PendThere(s, held);
    DropCancelledPart(s.slots, s.demand, Total(s) + held);
    PendingShorter(s, DropCancelled(s.demand), held);
  }

  /** Only the demand's own books change. */
  lemma BooksKept(s: State, d': Demand, held: multiset<Token>)
    requires Sound(s, held) && d'.pending == s.demand.pending && DemandPart(s.slots, d', Total(s) + held)
    ensures Sound(s.(demand := d'), held)
  {
    hide Sound, Total, DemandPart, Only;
    NoneOnly(DemandKind);
    Nothing(Total(s) + held);
    Nothing(held);
    Mint(s, d', held, multiset{});
  }

  lemma CancelKeeps(s: State, held: multiset<Token>, h: Hash)
    requires Sound(s, held)
    ensures Sound(s.(demand := CancelOnePending(s.demand, h)), held)
    ensures s.Cfg().sharePreload ==> (Total(s) + held)[TPend(h)] == Count(CancelOnePending(s.demand, h).pendingCancel, h)
  {
    hide Sound, Total, DemandPart;
    DemandNow(s, held);
    CancelPart(s.slots, s.demand, Total(s) + held, h);
    BooksKept(s, CancelOnePending(s.demand, h), held);
  }

  // ---------- Misses and stores ----------

  lemma BlockKeeps(s: State, held: multiset<Token>, h: Hash, infos: seq<Info>)
    requires Sound(s, held) && h in s.demand.storeInflight && AllFor(infos, h)
    requires s.Cfg().sharePreload ==>
      Absent(s.slots, Total(s) + held, h) && h !in s.demand.missing && h !in s.demand.blocked && |infos| == 1
    ensures Sound(s.(demand := BlockOnWrite(s.demand, h, infos)), held)
  {
    hide Sound, Total, DemandPart, Absent;
    DemandNow(s, held);
    BlockPart(s.slots, s.demand, Total(s) + held, h, infos);
    BooksKept(s, BlockOnWrite(s.demand, h, infos), held);
  }

  lemma {:induction false} ForgetAllKeepsPending(d: Demand, hs: seq<Hash>)
    ensures ForgetAllMissing(d, hs).pending == d.pending
  {
    if hs != [] { ForgetAllKeepsPending(d, hs[..|hs| - 1]); }
  }

  lemma ForgetAllMissingKeeps(s: State, held: multiset<Token>, hs: seq<Hash>)
    requires Sound(s, held)
    ensures Sound(s.(demand := ForgetAllMissing(s.demand, hs)), held)
  {
    hide Sound, Total, DemandPart, ForgetAllMissing;
    DemandNow(s, held);
    ForgetAllMissingPart(s.slots, s.demand, Total(s) + held, hs);
    ForgetAllKeepsPending(s.demand, hs);
    BooksKept(s, ForgetAllMissing(s.demand, hs), held);
  }

  lemma ForgetMissingKeeps(s: State, held: multiset<Token>, h: Hash)
    requires Sound(s, held)
    ensures Sound(s.(demand := ForgetMissing(s.demand, h)), held)
  {
    hide Sound, Total, DemandPart;
    DemandNow(s, held);
    ForgetMissingPart(s.slots, s.demand, Total(s) + held, h);
    BooksKept(s, ForgetMissing(s.demand, h), held);
  }

  lemma RememberKeepsPending(z: Slots, d: Demand, t: multiset<Token>, info: Info)
    requires DemandPart(z, d, t)
    ensures RememberMissing(d, info).pending == d.pending
  {
    hide DemandPart, MissingAgree, TrimMissing;
    MissingAgrees(z, d, t);
    AddMissingAgrees(d, info);
    TrimAgrees(AddMissing(d, info));
  }

  lemma RememberKeeps(s: State, held: multiset<Token>, info: Info)
    requires Sound(s, held)
    requires s.Cfg().sharePreload ==>
      Absent(s.slots, Total(s) + held, info.hash) && info.hash !in s.demand.blocked && info.hash !in s.demand.missing
    ensures Sound(s.(demand := RememberMissing(s.demand, info)), held)
  {
    hide Sound, Total, DemandPart, Absent, RememberMissing;
    DemandNow(s, held);
    RememberPart(s.slots, s.demand, Total(s) + held, info);
    RememberKeepsPending(s.slots, s.demand, Total(s) + held, info);
    BooksKept(s, RememberMissing(s.demand, info), held);
  }

  lemma JoinMissingKeeps(s: State, held: multiset<Token>, info: Info)
    requires Sound(s, held) && info.hash in s.demand.missing && !s.Cfg().sharePreload
    ensures Sound(s.(demand := AddMissing(s.demand, info)), held)
  {
    hide Sound, Total, DemandPart;
    DemandNow(s, held);
    JoinMissingPart(s.slots, s.demand, Total(s) + held, info);
    BooksKept(s, AddMissing(s.demand, info), held);
  }

  lemma AnnounceKeeps(s: State, held: multiset<Token>, h: Hash)
    requires Sound(s, held)
    ensures Sound(s.(demand := s.demand.(storeInflight := Raise(s.demand.storeInflight, h))), held + multiset{TStore(h)})
  {
    hide Sound, Total, DemandPart, Only;
    DemandNow(s, held);
    AnnouncePart(s.slots, s.demand, Total(s) + held, h);
    DemandTokensOnly(h);
    Mint(s, s.demand.(storeInflight := Raise(s.demand.storeInflight, h)), held, multiset{TStore(h)});
  }

  lemma AnnounceBlockedKeeps(s: State, held: multiset<Token>, h: Hash, infos: seq<Info>)
    requires Sound(s, held) && AllFor(infos, h)
    requires s.Cfg().sharePreload ==>
      Absent(s.slots, Total(s) + held, h) && h !in s.demand.missing && h !in s.demand.blocked && |infos| == 1
    ensures var d1 := BlockOnWrite(s.demand, h, infos);
      Sound(s.(demand := d1.(storeInflight := Raise(d1.storeInflight, h))), held + multiset{TStore(h)})
  {
    hide Sound, Total, DemandPart, Only, Absent;
    DemandNow(s, held);
    AnnounceBlockedPart(s.slots, s.demand, Total(s) + held, h, infos);
    DemandTokensOnly(h);
    var d1 := BlockOnWrite(s.demand, h, infos);
    Mint(s, d1.(storeInflight := Raise(d1.storeInflight, h)), held, multiset{TStore(h)});
  }

  lemma StoreEndedKeeps(s: State, held: multiset<Token>, h: Hash)
    requires Sound(s, held + multiset{TStore(h)})
    ensures Sound(s.(demand := StoreEnded(s.demand, h)), held)
  {
    hide Sound, Total, DemandPart, Only;
    var t := Total(s) + (held + multiset{TStore(h)});
    DemandNow(s, held + multiset{TStore(h)});
    assert TStore(h) in t;
    StoreEndedPart(s.slots, s.demand, t, h);
    DemandTokensOnly(h);
    Spend(s, StoreEnded(s.demand, h), held, multiset{TStore(h)});
  }

  // ---------- Slots and demand together ----------

  /** Slots change so that the demand sees it, and held tokens of both are used up. */
  lemma SlotsAndDemand(s: State, z': Slots, held: multiset<Token>, a: multiset<Token>, b: multiset<Token>)
    requires Sound(s, held + a + b) && Only(SlotKind, a) && Only(DemandKind, b)
    requires SlotSound(z', s.memory, Outside(s) + held) && z'.cfg == s.slots.cfg
    requires DemandPart(z', s.demand, Total(s) + (held + a + b) - b)
    ensures Sound(s.(slots := z'), held)
  {
    hide Total, SlotsTotal, Outside, SlotPart, FilePart, BudgetsOk, DemandPart, Claims, Only, Same;
    var s', t := s.(slots := z'), Total(s) + (held + a + b);
    var t' := Total(s') + held;
    TotalSplits(s);
    TotalSplits(s');
    OutsideUnseen(s, z', s.memory);
    assert s.(slots := z', memory := s.memory) == s';
    assert t == (SlotsTotal(s.slots) + a) + (Outside(s) + held) + b;
    var t1 := (SlotsTotal(s.slots) + a) + (Outside(s) + held);
    assert t - b == t1;
    assert t' == SlotsTotal(z') + (Outside(s) + held);
    assert SlotsTotal(z') + (Outside(s) + held) == SlotsTotal(z') + Outside(s) + held;
    OnlySlots(s.slots, a);
    SlotsOnly(z');
    NoneOnly(DemandKind);
    Nothing(t - b);
    Unseen(FileKind, DemandKind, t, b, multiset{});
    Unseen(BudgetKind, DemandKind, t, b, multiset{});
    SameOutside(FileKind, SlotsTotal(s.slots) + a, SlotsTotal(z'), Outside(s) + held);
    SameOutside(BudgetKind, SlotsTotal(s.slots) + a, SlotsTotal(z'), Outside(s) + held);
    SameOutside(DemandKind, SlotsTotal(s.slots) + a, SlotsTotal(z'), Outside(s) + held);
    FilesUnseen(s.work, t, t1);
    FilesUnseen(s.work, t1, t');
    BudgetsUnseen(s.Cfg(), s.ring, t, t1);
    BudgetsUnseen(s.Cfg(), s.ring, t1, t');
    SameSelf(z');
    DemandUnseen(z', s.demand, t1, z', t');
  }

  /** A finished private read that nobody waits for is kept for later. */
  lemma KeptKeeps(s: State, held: multiset<Token>, x: Slot, info: Info)
    requires Sound(s, held + HasTokens(x, info.hash) + ServeTokens(info.hash)) && !s.Cfg().sharePreload
    requires (Total(s) + held)[TWait(info.hash)] == 0
    ensures Sound(s.(slots := PreloadPush(s.slots, x, info)), held)
  {
    var h, a, b := info.hash, HasTokens(x, info.hash), ServeTokens(info.hash);
    var t := Total(s) + (held + a + b);
    hide Sound, Total, SlotSound, DemandPart, Only, PreloadPush, Outside, HasTokens, ServeTokens;
    DemandNow(s, held + a + b);
    assert held + a + b == held + b + a;
    SlotView(s, held + b, a);
    assert Outside(s) + (held + b) + a == (Outside(s) + held + b) + a;
    PreloadPushSound(s.slots, s.memory, Outside(s) + held + b, x, info);
    SlotTokensOnly(x, h);
    DemandTokensOnly(h);
    ServeThere(Total(s), held + a, h);
    NoWaitInSlot(Total(s), held, x, h);
    var z' := PreloadPush(s.slots, x, info);
    PreloadPushMore(s.slots, x, info);
    KeptPart(s.slots, s.demand, t, z', h);
    ServeUnseen(z', s.memory, Outside(s) + held, h);
    SlotsAndDemand(s, z', held, a, b);
  }

  lemma NoWaitInSlot(t: multiset<Token>, held: multiset<Token>, x: Slot, h: Hash)
    ensures (t + (held + HasTokens(x, h) + ServeTokens(h)))[TWait(h)] == (t + held)[TWait(h)]
    ensures (t + (held + multiset{THandle(x)} + ServeTokens(h)))[TWait(h)] == (t + held)[TWait(h)]
  {
  }

  lemma PreloadPushMore(z: Slots, x: Slot, info: Info)
    ensures PreloadPush(z, x, info).cfg == z.cfg && PreloadPush(z, x, info).cachedTotal == z.cachedTotal + 1
  {
    hide PreloadEnd;
  }

  lemma ServeUnseen(z: Slots, m: map<Slot, Hash>, rest: multiset<Token>, h: Hash)
    requires SlotSound(z, m, rest + ServeTokens(h))
    ensures SlotSound(z, m, rest)
  {
    hide SlotsTotal, SlotPart, Only;
    var t, b := SlotsTotal(z) + (rest + ServeTokens(h)), ServeTokens(h);
    DemandTokensOnly(h);
    NoneOnly(DemandKind);
    Unseen(SlotKind, DemandKind, t, b, multiset{});
    Nothing(t - b);
    assert t - b == SlotsTotal(z) + rest;
    SlotsUnseen(z, m, t, t - b);
  }

  /** A finished shared read whose block is still wanted becomes claimable. */
  lemma InstallKeeps(s: State, held: multiset<Token>, x: Slot, h: Hash)
    requires Sound(s, held + multiset{THandle(x)} + ServeTokens(h)) && s.Cfg().sharePreload
    requires (Total(s) + held)[TWait(h)] == 0
    requires x in s.slots.shared && s.slots.shared[x].hash == h && !s.slots.shared[x].cached && Count(s.slots.refcount, h) > 0
    requires Claims(s.slots, h) == 0
    ensures Sound(s.(slots := Install(s.slots, x)), held)
  {
    var a, b := multiset{THandle(x)}, ServeTokens(h);
    var t := Total(s) + (held + a + b);
    hide Sound, Total, SlotSound, DemandPart, Only, Outside, ServeTokens, Claims, Claimable;
    DemandNow(s, held + a + b);
    assert held + a + b == held + b + a;
    SlotView(s, held + b, a);
    assert Outside(s) + (held + b) + a == (Outside(s) + held + b) + a;
    InstallSound(s.slots, s.memory, Outside(s) + held + b, x);
    SlotTokensOnly(x, h);
    DemandTokensOnly(h);
    ServeThere(Total(s), held + a, h);
    NoWaitInSlot(Total(s), held, x, h);
    var z' := Install(s.slots, x);
    InstalledPart(s.slots, s.demand, t, z', h);
    ServeUnseen(z', s.memory, Outside(s) + held, h);
    SlotsAndDemand(s, z', held, a, b);
  }

  /** Nobody's claim depends on demand that is forgotten. */
  lemma ForgetDemandKeeps(s: State, held: multiset<Token>, h: Hash)
    requires Sound(s, held) && Claims(s.slots, h) == 0
    ensures Sound(s.(slots := ForgetDemand(s.slots, h)), held)
  {
    hide Sound, SlotSound, ClaimsShrink, Outside, Claims, PurgeOwned;
    SlotNow(s, held);
    ForgetDemandSound(s.slots, s.memory, Outside(s) + held, h);
    ShrinkNone(s.slots);
    ForgetShrinks(s.slots, s.slots, h, PurgeOwned(s.slots.owned, h));
    SlotsKept(s, ForgetDemand(s.slots, h), held);
  }

  lemma OwnShrinks(z: Slots, owned: seq<(ReqId, Hash)>, refcount: map<Hash, int>)
    requires forall h: Hash :: Count(refcount, h) >= Count(z.refcount, h)
    ensures ClaimsShrink(z, z.(owned := owned, refcount := refcount))
  {
    var z' := z.(owned := owned, refcount := refcount);
    assert forall h: Hash :: Claims(z', h) == Claims(z, h);
    hide Claims;
  }

  /** New demand is noted. */
  lemma OwnKeeps(s: State, held: multiset<Token>, owned: seq<(ReqId, Hash)>, refcount: map<Hash, int>)
    requires Sound(s, held) && forall h: Hash :: Count(refcount, h) >= Count(s.slots.refcount, h)
    requires s.Cfg().sharePreload ==> DemandCounted(owned, refcount)
    ensures Sound(s.(slots := s.slots.(owned := owned, refcount := refcount)), held)
  {
    hide Sound, SlotSound, ClaimsShrink, Outside, DemandCounted;
    SlotNow(s, held);
    DemandFieldsUnseen(s.slots, s.memory, Outside(s) + held, owned, refcount);
    OwnShrinks(s.slots, owned, refcount);
    SlotsKept(s, s.slots.(owned := owned, refcount := refcount), held);
  }

  lemma CountedIn(s: State, held: multiset<Token>)
    requires Sound(s, held) && s.Cfg().sharePreload
    ensures DemandCounted(s.slots.owned, s.slots.refcount)
  {
    hide Sound, SlotSound, Outside, DemandCounted;
    SlotNow(s, held);
    CountedNow(s.slots, s.memory, Outside(s) + held);
  }
}
