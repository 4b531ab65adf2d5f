/** The small moves that the reactor's steps are made of, each shown to keep the invariant: what a move
    takes out of a collection is held until a later move puts it somewhere. */
module ReactorMoves {
  import opened Outcomes
  import opened OrderedKeys
  import opened ReactorState
  import opened ReactorSlots
  import opened Reactor
  import opened ReactorTokens
  import opened ReactorSlotSafety
  import opened ReactorFileSafety
  import opened ReactorDemandSafety
  import SC = StagingCache

  // ---------- Changing one group ----------

  ghost predicate Only(kind: Kind, a: multiset<Token>) {
    forall k: Token :: k in a ==> KindOf(k) == kind
  }

  /** All tokens outside the slots. */
  ghost function Outside(s: State): multiset<Token> {
    RingTotal(s.ring) + WorkTotal(s.work) + Flat(s.demand.pending, PendTokens) + Flat(s.waiters, WaitTokens)
  }

  lemma TotalSplits(s: State)
    ensures Total(s) == SlotsTotal(s.slots) + Outside(s)
  {
    hide RingTotal, WorkTotal, SlotsTotal, Flat;
  }

  lemma {:induction false} FlatOnly<T>(kind: Kind, s: seq<T>, f: T -> multiset<Token>)
    requires forall e: T :: Only(kind, f(e))
    ensures Only(kind, Flat(s, f))
  {
    if s != [] { FlatOnly(kind, s[..|s| - 1], f); }
  }

  lemma {:induction false} SumOnly<K, V>(kind: Kind, m: map<K, V>, f: (K, V) -> multiset<Token>)
    requires forall k: K, v: V :: Only(kind, f(k, v))
    ensures Only(kind, Sum(m, f))
    decreases m
  {
    if m != map[] {
      var k :| k in m && Sum(m, f) == Sum(m - {k}, f) + f(k, m[k]);
      SumOnly(kind, m - {k}, f);
    }
  }

  lemma SlotsOnly(z: Slots)
    ensures Only(SlotKind, SlotsTotal(z))
  {
    FlatOnly(SlotKind, z.free, BlankTokens);
    SumOnly(SlotKind, z.cache.slots, CacheTokens);
    FlatOnly(SlotKind, z.preload, StagedTokens);
    SumOnly(SlotKind, z.shared, SharedTokens);
    hide Flat, Sum;
  }

  lemma SameOutside(kind: Kind, a: multiset<Token>, b: multiset<Token>, rest: multiset<Token>)
    requires Only(SlotKind, a) && Only(SlotKind, b) && kind != SlotKind
    ensures Same(kind, a + rest, b + rest)
  {
  }

  lemma SlotView(s: State, held: multiset<Token>, a: multiset<Token>)
    requires Sound(s, held + a)
    ensures SlotSound(s.slots, s.memory, Outside(s) + held + a)
  {
    hide Total, SlotsTotal, Outside, SlotPart;
    TotalSplits(s);
    assert SlotsTotal(s.slots) + (Outside(s) + held + a) == Total(s) + (held + a);
  }

  /** A change of the slots and their bytes alone. */
  lemma SlotAction(s: State, z': Slots, m': map<Slot, Hash>, held: multiset<Token>, a: multiset<Token>, b: multiset<Token>)
    requires Sound(s, held + a) && SlotSound(z', m', Outside(s) + held + b) && ClaimsShrink(s.slots, z')
    requires Only(SlotKind, a) && Only(SlotKind, b)
    ensures Sound(s.(slots := z', memory := m'), held + b)
  {
    hide Total, SlotsTotal, Outside, SlotPart, FilePart, BudgetsOk, DemandPart, Claims, Only, Same;
    var s' := s.(slots := z', memory := m');
    TotalSplits(s);
    TotalSplits(s');
    OutsideUnseen(s, z', m');
    var t, t' := Total(s) + (held + a), Total(s') + (held + b);
    assert t == (SlotsTotal(s.slots) + a) + (Outside(s) + held);
    assert t' == (SlotsTotal(z') + b) + (Outside(s) + held);
    assert t' == SlotsTotal(z') + (Outside(s) + held + b);
    OnlySlots(s.slots, a);
    OnlySlots(z', b);
    SameOutside(FileKind, SlotsTotal(s.slots) + a, SlotsTotal(z') + b, Outside(s) + held);
    SameOutside(BudgetKind, SlotsTotal(s.slots) + a, SlotsTotal(z') + b, Outside(s) + held);
    SameOutside(DemandKind, SlotsTotal(s.slots) + a, SlotsTotal(z') + b, Outside(s) + held);
    FilesUnseen(s.work, t, t');
    BudgetsUnseen(s.Cfg(), s.ring, t, t');
    SameSelf(s.slots);
    DemandUnseen(s.slots, s.demand, t, s.slots, t');
    ShrinkPart(s.slots, s.demand, t', z');
  }

  lemma SameSelf(z: Slots)
    ensures SameClaims(z, z)
  {
  }

  lemma OnlySlots(z: Slots, a: multiset<Token>)
    requires Only(SlotKind, a)
    ensures Only(SlotKind, SlotsTotal(z) + a)
  {
    SlotsOnly(z);
    hide SlotsTotal;
  }

  lemma OutsideUnseen(s: State, z': Slots, m': map<Slot, Hash>)
    ensures Outside(s.(slots := z', memory := m')) == Outside(s)
  {
  }

  lemma Unseen(kind: Kind, k2: Kind, t: multiset<Token>, a: multiset<Token>, b: multiset<Token>)
    requires Only(k2, a) && Only(k2, b) && kind != k2
    ensures Same(kind, t, t - a + b)
  {
  }

  /** A change of the jobs alone. */
  lemma FileAction(s: State, w': Work, held: multiset<Token>, held': multiset<Token>, a: multiset<Token>, b: multiset<Token>)
    requires Sound(s, held) && Only(FileKind, a) && Only(FileKind, b)
    requires Total(s.(work := w')) + held' == Total(s) + held - a + b
    requires FilePart(w', Total(s) + held - a + b)
    ensures Sound(s.(work := w'), held')
  {
    hide Total, SlotPart, FilePart, BudgetsOk, DemandPart, Claims, Only, Same;
    var t := Total(s) + held;
    Unseen(SlotKind, FileKind, t, a, b);
    Unseen(BudgetKind, FileKind, t, a, b);
    Unseen(DemandKind, FileKind, t, a, b);
    SlotsUnseen(s.slots, s.memory, t, t - a + b);
    BudgetsUnseen(s.Cfg(), s.ring, t, t - a + b);
    SameSelf(s.slots);
    DemandUnseen(s.slots, s.demand, t, s.slots, t - a + b);
  }

  /** A change of the ring alone. */
  lemma RingAction(s: State, g': Ring, held: multiset<Token>, held': multiset<Token>, a: multiset<Token>, b: multiset<Token>)
    requires Sound(s, held) && Only(BudgetKind, a) && Only(BudgetKind, b)
    requires Total(s.(ring := g')) + held' == Total(s) + held - a + b
    requires BudgetsOk(s.Cfg(), g', Total(s) + held - a + b)
    ensures Sound(s.(ring := g'), held')
  {
    hide Total, SlotPart, FilePart, BudgetsOk, DemandPart, Claims, Only, Same;
    var t := Total(s) + held;
    Unseen(SlotKind, BudgetKind, t, a, b);
    Unseen(FileKind, BudgetKind, t, a, b);
    Unseen(DemandKind, BudgetKind, t, a, b);
    SlotsUnseen(s.slots, s.memory, t, t - a + b);
    FilesUnseen(s.work, t, t - a + b);
    SameSelf(s.slots);
    DemandUnseen(s.slots, s.demand, t, s.slots, t - a + b);
  }

  /** A change of the demand and the waiting files. */
  lemma DemandAction(s: State, d': Demand, ws': seq<FileRef>, held: multiset<Token>, held': multiset<Token>,
                     a: multiset<Token>, b: multiset<Token>)
    requires Sound(s, held) && Only(DemandKind, a) && Only(DemandKind, b)
    requires Total(s.(demand := d', waiters := ws')) + held' == Total(s) + held - a + b
    requires DemandPart(s.slots, d', Total(s) + held - a + b)
    ensures Sound(s.(demand := d', waiters := ws'), held')
  {
    hide Total, SlotPart, FilePart, BudgetsOk, DemandPart, Claims, Only, Same;
    var t := Total(s) + held;
    Unseen(SlotKind, DemandKind, t, a, b);
    Unseen(FileKind, DemandKind, t, a, b);
    Unseen(BudgetKind, DemandKind, t, a, b);
    SlotsUnseen(s.slots, s.memory, t, t - a + b);
    FilesUnseen(s.work, t, t - a + b);
    BudgetsUnseen(s.Cfg(), s.ring, t, t - a + b);
  }

  // ---------- Slots ----------

  lemma Nothing(a: multiset<Token>)
    ensures a + multiset{} == a && multiset{} + a == a && a - multiset{} == a
  {
  }

  lemma SlotsOut(s: State, z': Slots, held: multiset<Token>, a: multiset<Token>)
    requires Sound(s, held + a) && SlotSound(z', s.memory, Outside(s) + held) && ClaimsShrink(s.slots, z') && Only(SlotKind, a)
    ensures Sound(s.(slots := z'), held)
  {
    hide Sound, SlotSound, ClaimsShrink, Outside;
    Nothing(held);
    Nothing(Outside(s) + held);
    assert Only(SlotKind, multiset{});
    SlotAction(s, z', s.memory, held, a, multiset{});
    assert s.(slots := z', memory := s.memory) == s.(slots := z');
  }

  lemma SlotsIn(s: State, z': Slots, held: multiset<Token>, b: multiset<Token>)
    requires Sound(s, held) && SlotSound(z', s.memory, Outside(s) + held + b) && ClaimsShrink(s.slots, z') && Only(SlotKind, b)
    ensures Sound(s.(slots := z'), held + b)
  {
    hide Sound, SlotSound, ClaimsShrink, Outside;
    Nothing(held);
    assert Only(SlotKind, multiset{});
    SlotAction(s, z', s.memory, held, multiset{}, b);
    assert s.(slots := z', memory := s.memory) == s.(slots := z');
  }

  lemma SlotsKept(s: State, z': Slots, held: multiset<Token>)
    requires Sound(s, held) && SlotSound(z', s.memory, Outside(s) + held) && ClaimsShrink(s.slots, z')
    ensures Sound(s.(slots := z'), held)
  {
    hide Sound, SlotSound, ClaimsShrink, Outside;
    Nothing(held);
    assert Only(SlotKind, multiset{});
    SlotsOut(s, z', held, multiset{});
  }

  lemma SlotNow(s: State, held: multiset<Token>)
    requires Sound(s, held)
    ensures SlotSound(s.slots, s.memory, Outside(s) + held)
  {
    hide Sound, SlotSound, Outside;
    Nothing(held);
    Nothing(Outside(s) + held);
    SlotView(s, held, multiset{});
  }

  lemma SlotTokensOnly(x: Slot, h: Hash)
    ensures Only(SlotKind, BlankTokens(x)) && Only(SlotKind, HasTokens(x, h)) && Only(SlotKind, multiset{TShared(x, h)})
    ensures Only(SlotKind, multiset{TPin(h, x)}) && Only(SlotKind, multiset{THandle(x)})
  {
  }

  lemma ReleaseKeeps(s: State, held: multiset<Token>, x: Slot)
    requires Sound(s, held + BlankTokens(x))
    ensures Sound(s.(slots := Release(s.slots, x)), held)
  {
    hide Sound, SlotSound, ClaimsShrink, Outside, Release, BlankTokens, Only;
    SlotTokensOnly(x, 0);
    SlotView(s, held, BlankTokens(x));
    ReleaseBlankSound(s.slots, s.memory, Outside(s) + held, x);
    SlotsOut(s, Release(s.slots, x), held, BlankTokens(x));
  }

  lemma ReleaseOrCacheKeeps(s: State, held: multiset<Token>, h: Hash, x: Slot)
    requires Sound(s, held + HasTokens(x, h))
    ensures Sound(s.(slots := ReleaseOrCache(s.slots, h, x)), held)
  {
    hide Sound, SlotSound, ClaimsShrink, Outside, ReleaseOrCache, HasTokens, Only;
    SlotTokensOnly(x, h);
    SlotView(s, held, HasTokens(x, h));
    ReleaseOrCacheSound(s.slots, s.memory, Outside(s) + held, h, x);
    SlotsOut(s, ReleaseOrCache(s.slots, h, x), held, HasTokens(x, h));
  }

  lemma ShrinkCfg(z: Slots, z': Slots)
    requires ClaimsShrink(z, z')
    ensures z'.cfg == z.cfg
  {
  }

  lemma ReserveForegroundKeeps(s: State, held: multiset<Token>)
    requires Sound(s, held)
    ensures var (z', x) := ReserveForeground(s.slots);
      && z'.cfg == s.slots.cfg
      && (x.Some? ==> Sound(s.(slots := z'), held + BlankTokens(x.value)))
      && (x.None? ==> z' == s.slots)
  {
    hide Sound, SlotSound, ClaimsShrink, Outside, ReserveForeground, BlankTokens, Only, AllBusy;
    SlotNow(s, held);
    ReserveForegroundSound(s.slots, s.memory, Outside(s) + held);
    var (z', x) := ReserveForeground(s.slots);
    ShrinkCfg(s.slots, z');
    if x.Some? {
      SlotTokensOnly(x.value, 0);
      SlotsIn(s, z', held, BlankTokens(x.value));
    }
  }

  lemma ReservePreloadKeeps(s: State, held: multiset<Token>)
    requires Sound(s, held)
    ensures var (z', x) := ReservePreload(s.slots);
      && (x.Some? ==> Sound(s.(slots := z'), held + BlankTokens(x.value)))
      && (x.None? ==> Sound(s.(slots := z'), held))
      && z'.cfg == s.slots.cfg
  {
    hide Sound, SlotSound, ClaimsShrink, Outside, ReservePreload, BlankTokens, Only;
    SlotNow(s, held);
    ReservePreloadSound(s.slots, s.memory, Outside(s) + held);
    var (z', x) := ReservePreload(s.slots);
    ShrinkCfg(s.slots, z');
    if x.Some? {
      SlotTokensOnly(x.value, 0);
      SlotsIn(s, z', held, BlankTokens(x.value));
    } else {
      SlotsKept(s, z', held);
    }
  }

  lemma DecrefKeeps(s: State, held: multiset<Token>, r: ReqId, h: Hash)
    requires Sound(s, held)
    ensures Sound(s.(slots := Decref(s.slots, r, h)), held)
  {
    hide Sound, SlotSound, ClaimsShrink, Outside, Decref;
    SlotNow(s, held);
    DecrefSound(s.slots, s.memory, Outside(s) + held, r, h);
    SlotsKept(s, Decref(s.slots, r, h), held);
  }

  lemma AddCopyKeeps(s: State, held: multiset<Token>, x: Slot)
    requires Sound(s, held) && x in s.slots.shared
    ensures Sound(s.(slots := AddCopies(s.slots, x, 1)), held + multiset{TShared(x, s.slots.shared[x].hash)})
  {
    hide Sound, SlotSound, ClaimsShrink, Outside, AddCopies, Only;
    SlotNow(s, held);
    AddCopySound(s.slots, s.memory, Outside(s) + held, x);
    SlotTokensOnly(x, s.slots.shared[x].hash);
    SlotsIn(s, AddCopies(s.slots, x, 1), held, multiset{TShared(x, s.slots.shared[x].hash)});
  }

  lemma SourceOnly(c: LoadCopy)
    ensures Only(SlotKind, SourceTokens(c))
  {
    hide Only, HasTokens;
    SlotTokensOnly(c.slot, c.file.hash);
  }

  lemma SettleKeeps(s: State, held: multiset<Token>, c: LoadCopy)
    requires Sound(s, held + SourceTokens(c))
    ensures Sound(s.(slots := SettleLoadSlot(s.slots, c)), held)
  {
    hide Sound, SlotSound, ClaimsShrink, Outside, SettleLoadSlot, SourceTokens, Only;
    SourceOnly(c);
    SlotView(s, held, SourceTokens(c));
    SettleSound(s.slots, s.memory, Outside(s) + held, c);
    SlotsOut(s, SettleLoadSlot(s.slots, c), held, SourceTokens(c));
  }

  lemma PinKeeps(s: State, held: multiset<Token>, h: Hash)
    requires Sound(s, held) && h in s.slots.cache.slots
    ensures Sound(s.(slots := s.slots.(cache := SC.Pin(s.slots.cache, h))), held + multiset{TPin(h, s.slots.cache.slots[h].slotIndex)})
  {
    hide Sound, SlotSound, ClaimsShrink, Outside, SC.Pin, Only;
    SlotNow(s, held);
    PinSound(s.slots, s.memory, Outside(s) + held, h);
    SlotTokensOnly(s.slots.cache.slots[h].slotIndex, h);
    SlotsIn(s, s.slots.(cache := SC.Pin(s.slots.cache, h)), held, multiset{TPin(h, s.slots.cache.slots[h].slotIndex)});
  }

  lemma GetKeeps(s: State, held: multiset<Token>, h: Hash)
    requires Sound(s, held)
    ensures Sound(s.(slots := s.slots.(cache := SC.Get(s.slots.cache, h).0)), held)
  {
    hide Sound, SlotSound, ClaimsShrink, Outside, SC.Get;
    SlotNow(s, held);
    GetSound(s.slots, s.memory, Outside(s) + held, h);
    SlotsKept(s, s.slots.(cache := SC.Get(s.slots.cache, h).0), held);
  }

  /** A private copy is claimed. */
  lemma PreloadPopKeeps(s: State, held: multiset<Token>, h: Hash)
    requires Sound(s, held) && HasPrivateCopy(s.slots, h)
    ensures var (z', e) := PreloadPop(s.slots, h);
      e.Some? && Sound(s.(slots := z'), held + HasTokens(e.value.slot, h))
  {
    hide Sound, SlotSound, ClaimsShrink, Outside, HasTokens, Only;
    SlotNow(s, held);
    var k := PreloadIndex(s.slots.preload, h);
    PreloadDropSound(s.slots, s.memory, Outside(s) + held, k);
    SlotTokensOnly(s.slots.preload[k].slot, h);
    SlotsIn(s, PreloadPop(s.slots, h).0, held, HasTokens(s.slots.preload[k].slot, h));
  }

  lemma ShrinkNone(z: Slots)
    ensures ClaimsShrink(z, z)
  {
  }

  /** A slot is full of a hash's bytes. */
  lemma FillKeeps(s: State, held: multiset<Token>, x: Slot, h: Hash)
    requires Sound(s, held + BlankTokens(x))
    ensures Sound(s.(memory := s.memory[x := h]), held + HasTokens(x, h))
  {
    hide Sound, SlotSound, ClaimsShrink, Outside, BlankTokens, HasTokens, Only;
    SlotView(s, held, BlankTokens(x));
    FillSound(s.slots, s.memory, Outside(s) + held, x, h);
    ShrinkNone(s.slots);
    SlotTokensOnly(x, h);
    SlotAction(s, s.slots, s.memory[x := h], held, BlankTokens(x), HasTokens(x, h));
    assert s.(slots := s.slots, memory := s.memory[x := h]) == s.(memory := s.memory[x := h]);
  }

  lemma BlankThere(a: multiset<Token>, held: multiset<Token>, x: Slot)
    ensures TBlank(x) in a + held + BlankTokens(x)
  {
  }

  /** A slot is handed to a device to write into. */
  lemma ClobberKeeps(s: State, held: multiset<Token>, x: Slot)
    requires Sound(s, held + BlankTokens(x))
    ensures Sound(s.(memory := s.memory - {x}), held + BlankTokens(x))
  {
    hide Sound, SlotSound, ClaimsShrink, Outside, BlankTokens, Only;
    SlotView(s, held, BlankTokens(x));
    BlankThere(Outside(s), held, x);
    ClobberSound(s.slots, s.memory, Outside(s) + held + BlankTokens(x), x);
    ShrinkNone(s.slots);
    SlotTokensOnly(x, 0);
    SlotAction(s, s.slots, s.memory - {x}, held, BlankTokens(x), BlankTokens(x));
    assert s.(slots := s.slots, memory := s.memory - {x}) == s.(memory := s.memory - {x});
  }

  lemma NewSharedKeeps(s: State, held: multiset<Token>, x: Slot, h: Hash)
    requires Sound(s, held + HasTokens(x, h)) && s.Cfg().sharePreload
    ensures Sound(s.(slots := NewShared(s.slots, x, h)), held + multiset{THandle(x)})
  {
    hide Sound, SlotSound, ClaimsShrink, Outside, HasTokens, Only, NewShared;
    SlotView(s, held, HasTokens(x, h));
    NewSharedSound(s.slots, s.memory, Outside(s) + held, x, h);
    SlotTokensOnly(x, h);
    SlotAction(s, NewShared(s.slots, x, h), s.memory, held, HasTokens(x, h), multiset{THandle(x)});
    assert s.(slots := NewShared(s.slots, x, h), memory := s.memory) == s.(slots := NewShared(s.slots, x, h));
  }

  lemma MaybeReleaseKeeps(s: State, held: multiset<Token>, x: Slot)
    requires Sound(s, held + multiset{THandle(x)})
    ensures Sound(s.(slots := MaybeReleaseShared(s.slots, x)), held)
  {
    hide Sound, SlotSound, ClaimsShrink, Outside, MaybeReleaseShared, Only;
    SlotView(s, held, multiset{THandle(x)});
    MaybeReleaseSound(s.slots, s.memory, Outside(s) + held, x);
    SlotTokensOnly(x, 0);
    SlotsOut(s, MaybeReleaseShared(s.slots, x), held, multiset{THandle(x)});
  }

  // ---------- Files ----------

  lemma FileTokensThere(a: multiset<Token>, held: multiset<Token>, f: FileRef)
    ensures TFile(f) in a + (held + FileTokens(f)) && TJob(f.job) in a + (held + FileTokens(f))
    ensures Only(FileKind, FileTokens(f)) && Only(FileKind, EndTokens(FileEnd(f, true))) && Only(FileKind, EndTokens(FileEnd(f, false)))
  {
  }

  lemma Swapped(total: multiset<Token>, held: multiset<Token>, a: multiset<Token>, b: multiset<Token>)
    ensures (total + b) + held == total + (held + a) - a + b
  {
    assert total + (held + a) - a == total + held;
  }

  lemma WorkSplits(s: State, w': Work, e: multiset<Token>)
    requires WorkTotal(w') == WorkTotal(s.work) + e
    ensures Total(s.(work := w')) == Total(s) + e
  {
    hide RingTotal, SlotsTotal, WorkTotal, Flat;
  }

  /** A file that was under way has ended. */
  lemma FileTerminalKeeps(s: State, held: multiset<Token>, f: FileRef, ok: bool)
    requires Sound(s, held + FileTokens(f))
    ensures Sound(s.(work := FileTerminal(s.work, f, ok)), held)
  {
    hide Total, SlotPart, BudgetsOk, DemandPart, FilePart, FileTerminal, FileTokens, EndTokens, WorkTotal, Only;
    var t, e := Total(s) + (held + FileTokens(f)), EndTokens(FileEnd(f, ok));
    FileTokensThere(Total(s), held, f);
    EndedFilePart(s.work, t, f, ok);
    FileTerminalTokens(s.work, f, ok);
    WorkSplits(s, FileTerminal(s.work, f, ok), e);
    Swapped(Total(s), held, FileTokens(f), e);
    FileAction(s, FileTerminal(s.work, f, ok), held + FileTokens(f), held, FileTokens(f), e);
  }

  lemma WorkLoses(s: State, w': Work, e: multiset<Token>)
    requires WorkTotal(s.work) == WorkTotal(w') + e
    ensures Total(s) == Total(s.(work := w')) + e
  {
    hide RingTotal, SlotsTotal, WorkTotal, Flat;
  }

  /** A job's next file is under way; a store's is no longer one of its unscheduled files. */
  lemma StartFileKeeps(s: State, held: multiset<Token>, j: JobId)
    requires Sound(s, held) && Schedulable(s.work, j)
    ensures Sound(s.(work := StartFile(s.work, j)), held + FileTokens(NextFile(s.work, j)) + StartTokens(s.work, j))
  {
    hide Total, SlotPart, BudgetsOk, DemandPart, FilePart, StartFile, FileTokens, StartTokens, WorkTotal, Only;
    var t, f, w' := Total(s) + held, NextFile(s.work, j), StartFile(s.work, j);
    StartedFilePart(s.work, t, j);
    StartFileTokens(s.work, j);
    WorkLoses(s, w', StartTokens(s.work, j));
    FileTokensThere(Total(s), held, f);
    assert Only(FileKind, multiset{}) by { NoneOnly(FileKind); }
    assert Total(s.(work := w')) + (held + FileTokens(f) + StartTokens(s.work, j)) == t - multiset{} + FileTokens(f);
    Nothing(t);
    FileAction(s, w', held, held + FileTokens(f) + StartTokens(s.work, j), multiset{}, FileTokens(f));
  }

  lemma NoneOnly(kind: Kind)
    ensures Only(kind, multiset{})
  {
  }

  /** A new job arrives; a store's files are unscheduled stores. */
  lemma NewJobKeeps(s: State, held: multiset<Token>, job: Job, active: bool)
    requires Sound(s, held + JobTokens(job)) && JobOk(job, 0, 0, 0) && job.next == 0 && job.inflight == 0
    requires if active then job.outcomes == [] else job.futureSet
    ensures Sound(s.(work := WithJob(s.work, job, active)), held)
  {
    hide Total, SlotPart, BudgetsOk, DemandPart, FilePart, JobTokens, WorkTotal, Only, JobOk, WithJob;
    var t, w' := Total(s) + (held + JobTokens(job)), WithJob(s.work, job, active);
    NewJobPart(s.work, t, job, active);
    NewJobTokens(s.work, job, active);
    WorkSplits(s, w', JobTokens(job));
    NoneOnly(FileKind);
    Nothing(t);
    assert Total(s.(work := w')) + held == t;
    FileAction(s, w', held + JobTokens(job), held, multiset{}, multiset{});
  }

  lemma FinishKeeps(s: State, held: multiset<Token>)
    requires Sound(s, held)
    ensures Sound(s.(work := s.work.(active := Remaining(s.work, s.work.active))), held)
  {
    hide Total, SlotPart, BudgetsOk, DemandPart, FilePart, Only;
    var w' := s.work.(active := Remaining(s.work, s.work.active));
    FinishedPart(s.work, Total(s) + held);
    SameTotal(s, w');
    NoneOnly(FileKind);
    Nothing(Total(s) + held);
    FileAction(s, w', held, held, multiset{}, multiset{});
  }

  lemma SameTotal(s: State, w': Work)
    requires w'.jobs == s.work.jobs && w'.log == s.work.log
    ensures Total(s.(work := w')) == Total(s)
  {
  }

  // ---------- The ring ----------

  /** A ring that differs in what it holds; the counters and bounds must hold of it. */
  lemma RingMoves(s: State, g': Ring, held: multiset<Token>, a: multiset<Token>, b: multiset<Token>)
    requires Sound(s, held + a) && RingTotal(s.ring) + a == RingTotal(g') + b
    requires g'.dataInflight == s.ring.dataInflight && g'.openInflight == s.ring.openInflight
    requires |g'.readyLoad| + |g'.readyPreload| <= |s.ring.readyLoad| + |s.ring.readyPreload| || CanOpen(s)
    requires |g'.readyLoad| + |g'.readyPreload| <= |s.ring.readyLoad| + |s.ring.readyPreload| + 1
    requires forall ud :: ud in g'.inflight ==> ud < g'.nextUd
    ensures Sound(s.(ring := g'), held + b)
  {
    hide SlotPart, DemandPart, FilePart, RingTotal, Only, Total;
    RingSplits(s, g', a, b);
    NoneOnly(BudgetKind);
    var t := Total(s) + (held + a);
    Nothing(t);
    assert t == (Total(s) + a) + held;
    assert Total(s.(ring := g')) + (held + b) == (Total(s.(ring := g')) + b) + held;
    RingAction(s, g', held + a, held + b, multiset{}, multiset{});
  }

  lemma RingSplits(s: State, g': Ring, a: multiset<Token>, b: multiset<Token>)
    requires RingTotal(s.ring) + a == RingTotal(g') + b
    ensures Total(s) + a == Total(s.(ring := g')) + b
  {
    hide RingTotal, SlotsTotal, WorkTotal, Flat;
    var r := SlotsTotal(s.slots) + WorkTotal(s.work) + Flat(s.demand.pending, PendTokens) + Flat(s.waiters, WaitTokens);
    assert Total(s) + a == (RingTotal(s.ring) + a) + r;
    assert Total(s.(ring := g')) + b == (RingTotal(g') + b) + r;
  }

  lemma FreshUd(s: State, held: multiset<Token>)
    requires Sound(s, held)
    ensures forall ud :: ud in s.ring.inflight ==> ud < s.ring.nextUd
  {
    hide Total, SlotPart, DemandPart, FilePart;
  }

  lemma SubmitTokens(g: Ring, op: Op)
    requires g.nextUd !in g.inflight
    ensures RingTotal(Submit(g, op)) == RingTotal(g) + OpTokens(g.nextUd, op)
  {
    hide Flat, Sum, OpTokens;
    SumAdd(g.inflight, g.nextUd, op, OpTokens);
  }

  lemma SubmitKeeps(s: State, held: multiset<Token>, op: Op)
    requires Sound(s, held + OpTokens(s.ring.nextUd, op))
    ensures Sound(s.(ring := Submit(s.ring, op)), held)
  {
    hide Sound, RingTotal, OpTokens;
    var e := OpTokens(s.ring.nextUd, op);
    FreshUd(s, held + e);
    SubmitTokens(s.ring, op);
    Nothing(held);
    Nothing(RingTotal(Submit(s.ring, op)));
    RingMoves(s, Submit(s.ring, op), held, e, multiset{});
  }

  lemma RefusedKeeps(s: State, held: multiset<Token>)
    requires Sound(s, held)
    ensures Sound(s.(ring := Refused(s.ring)), held)
  {
    assert RingTotal(Refused(s.ring)) == RingTotal(s.ring);
    hide Sound, RingTotal;
    FreshUd(s, held);
    Nothing(held);
    Nothing(RingTotal(s.ring));
    RingMoves(s, Refused(s.ring), held, multiset{}, multiset{});
  }

  lemma AsyncCloseKeeps(s: State, held: multiset<Token>, queued: bool)
    requires Sound(s, held)
    ensures Sound(s.(ring := AsyncClose(s.ring, queued)), held)
  {
    hide Sound;
    if queued {
      Nothing(held);
      assert held + OpTokens(s.ring.nextUd, Close) == held;
      SubmitKeeps(s, held, Close);
    } else {
      RefusedKeeps(s, held);
    }
  }

  lemma ReapTokens(g: Ring, ud: nat)
    requires ud in g.inflight
    ensures RingTotal(g) == RingTotal(g.(inflight := g.inflight - {ud})) + OpTokens(ud, g.inflight[ud])
  {
    hide Flat, Sum, OpTokens;
    SumRemove(g.inflight, ud, OpTokens);
  }

  /** An operation leaves the ring. */
  lemma ReapKeeps(s: State, held: multiset<Token>, ud: nat)
    requires Sound(s, held) && ud in s.ring.inflight
    ensures Sound(s.(ring := s.ring.(inflight := s.ring.inflight - {ud})), held + OpTokens(ud, s.ring.inflight[ud]))
  {
    hide Sound, RingTotal, OpTokens;
    FreshUd(s, held);
    ReapTokens(s.ring, ud);
    Nothing(held);
    Nothing(RingTotal(s.ring));
    RingMoves(s, s.ring.(inflight := s.ring.inflight - {ud}), held, multiset{}, OpTokens(ud, s.ring.inflight[ud]));
  }

  lemma DataKept(s: State, n: int)
    ensures Total(s.(ring := AddData(s.ring, n))) == Total(s)
  {
  }

  lemma DataOnly(held: multiset<Token>, t: multiset<Token>)
    ensures Only(BudgetKind, multiset{TData}) && Only(BudgetKind, multiset{TOpen})
    ensures t + (held + multiset{TData}) == t + held + multiset{TData}
    ensures t + (held + multiset{TOpen}) == t + held + multiset{TOpen}
    ensures t + (held + multiset{TData}) - multiset{TData} == t + held
    ensures t + (held + multiset{TOpen}) - multiset{TOpen} == t + held
  {
    assert t + (held + multiset{TData}) == t + held + multiset{TData};
    assert t + (held + multiset{TOpen}) == t + held + multiset{TOpen};
  }

  /** A unit of the device budget is taken. */
  lemma TakeData(s: State, held: multiset<Token>)
    requires Sound(s, held) && HasDataBudget(s)
    ensures Sound(s.(ring := AddData(s.ring, 1)), held + multiset{TData})
  {
    hide SlotPart, DemandPart, FilePart, Only, Total;
    DataKept(s, 1);
    DataOnly(held, Total(s));
    NoneOnly(BudgetKind);
    Nothing(Total(s) + held);
    RingAction(s, AddData(s.ring, 1), held, held + multiset{TData}, multiset{}, multiset{TData});
  }

  lemma GiveData(s: State, held: multiset<Token>)
    requires Sound(s, held + multiset{TData})
    ensures Sound(s.(ring := AddData(s.ring, -1)), held)
  {
    hide SlotPart, DemandPart, FilePart, Only, Total;
    DataKept(s, -1);
    DataOnly(held, Total(s));
    NoneOnly(BudgetKind);
    Nothing(Total(s) + held);
    RingAction(s, AddData(s.ring, -1), held + multiset{TData}, held, multiset{TData}, multiset{});
  }

  lemma OpenKept(s: State, n: int)
    ensures Total(s.(ring := AddOpen(s.ring, n))) == Total(s)
  {
  }

  /** Another file may be opened ahead. */
  lemma TakeOpen(s: State, held: multiset<Token>)
    requires Sound(s, held) && CanOpen(s)
    ensures Sound(s.(ring := AddOpen(s.ring, 1)), held + multiset{TOpen})
  {
    hide SlotPart, DemandPart, FilePart, Only, Total;
    OpenKept(s, 1);
    DataOnly(held, Total(s));
    NoneOnly(BudgetKind);
    Nothing(Total(s) + held);
    RingAction(s, AddOpen(s.ring, 1), held, held + multiset{TOpen}, multiset{}, multiset{TOpen});
  }

  lemma GiveOpen(s: State, held: multiset<Token>)
    requires Sound(s, held + multiset{TOpen})
    ensures Sound(s.(ring := AddOpen(s.ring, -1)), held) && CanOpen(s.(ring := AddOpen(s.ring, -1)))
  {
    hide SlotPart, DemandPart, FilePart, Only, Total;
    OpenKept(s, -1);
    DataOnly(held, Total(s));
    NoneOnly(BudgetKind);
    Nothing(Total(s) + held);
    RingAction(s, AddOpen(s.ring, -1), held + multiset{TOpen}, held, multiset{TOpen}, multiset{});
  }

  lemma QueueCopyKeeps(s: State, held: multiset<Token>, f: FileRef, x: Slot, source: Source)
    requires Sound(s, held + CopyTokens(LoadCopy(f, x, source)))
    ensures Sound(s.(ring := QueueLoadCopy(s.ring, f, x, source)), held)
  {
    QueueCopyTokens(s.ring, LoadCopy(f, x, source));
    hide Sound, RingTotal, CopyTokens;
    var e := CopyTokens(LoadCopy(f, x, source));
    FreshUd(s, held + e);
    Nothing(held);
    Nothing(RingTotal(QueueLoadCopy(s.ring, f, x, source)));
    RingMoves(s, QueueLoadCopy(s.ring, f, x, source), held, e, multiset{});
  }

  lemma QueueCopyTokens(g: Ring, c: LoadCopy)
    ensures RingTotal(g.(copyReady := g.copyReady + [c])) == RingTotal(g) + CopyTokens(c)
  {
    hide Flat, Sum, CopyTokens;
    FlatAppend(g.copyReady, c, CopyTokens);
  }

  lemma ReadyLoadTokens(g: Ring, f: FileRef)
    ensures RingTotal(g.(readyLoad := g.readyLoad + [f])) == RingTotal(g) + FileTokens(f)
  {
    hide Flat, Sum, FileTokens;
    FlatAppend(g.readyLoad, f, FileTokens);
  }

  lemma PushReadyLoadKeeps(s: State, held: multiset<Token>, f: FileRef)
    requires Sound(s, held + FileTokens(f)) && CanOpen(s)
    ensures Sound(s.(ring := s.ring.(readyLoad := s.ring.readyLoad + [f])), held)
  {
    ReadyLoadTokens(s.ring, f);
    hide Sound, RingTotal, FileTokens;
    FreshUd(s, held + FileTokens(f));
    Nothing(held);
    var g' := s.ring.(readyLoad := s.ring.readyLoad + [f]);
    Nothing(RingTotal(g'));
    RingMoves(s, g', held, FileTokens(f), multiset{});
  }

  lemma PopReadyLoadTokens(g: Ring)
    requires g.readyLoad != []
    ensures RingTotal(g) == RingTotal(g.(readyLoad := g.readyLoad[1..])) + FileTokens(g.readyLoad[0])
  {
    hide Flat, Sum, FileTokens;
    FlatPopFirst(g.readyLoad, FileTokens);
  }

  lemma PopReadyLoadKeeps(s: State, held: multiset<Token>)
    requires Sound(s, held) && s.ring.readyLoad != []
    ensures Sound(s.(ring := s.ring.(readyLoad := s.ring.readyLoad[1..])), held + FileTokens(s.ring.readyLoad[0]))
  {
    PopReadyLoadTokens(s.ring);
    hide Sound, RingTotal, FileTokens;
    FreshUd(s, held);
    Nothing(held);
    Nothing(RingTotal(s.ring));
    RingMoves(s, s.ring.(readyLoad := s.ring.readyLoad[1..]), held, multiset{}, FileTokens(s.ring.readyLoad[0]));
  }

  lemma ReadyPreTokens(g: Ring, info: Info)
    ensures RingTotal(g.(readyPreload := g.readyPreload + [info])) == RingTotal(g) + PreTokens(info.hash)
  {
    hide Flat, Sum, PreTokens;
    FlatAppend(g.readyPreload, info, ReadyPreloadTokens);
  }

  lemma PushReadyPreloadKeeps(s: State, held: multiset<Token>, info: Info)
    requires Sound(s, held + PreTokens(info.hash)) && CanOpen(s)
    ensures Sound(s.(ring := s.ring.(readyPreload := s.ring.readyPreload + [info])), held)
  {
    ReadyPreTokens(s.ring, info);
    hide Sound, RingTotal, PreTokens;
    FreshUd(s, held + PreTokens(info.hash));
    Nothing(held);
    var g' := s.ring.(readyPreload := s.ring.readyPreload + [info]);
    Nothing(RingTotal(g'));
    RingMoves(s, g', held, PreTokens(info.hash), multiset{});
  }

  lemma PopReadyPreTokens(g: Ring)
    requires g.readyPreload != []
    ensures RingTotal(g) == RingTotal(PopReadyPreload(g)) + PreTokens(g.readyPreload[0].hash)
  {
    hide Flat, Sum, PreTokens;
    FlatPopFirst(g.readyPreload, ReadyPreloadTokens);
  }

  lemma PopReadyPreloadKeeps(s: State, held: multiset<Token>)
    requires Sound(s, held) && s.ring.readyPreload != []
    ensures Sound(s.(ring := PopReadyPreload(s.ring)), held + PreTokens(s.ring.readyPreload[0].hash))
  {
    PopReadyPreTokens(s.ring);
    hide Sound, RingTotal, PreTokens;
    FreshUd(s, held);
    Nothing(held);
    Nothing(RingTotal(s.ring));
    RingMoves(s, PopReadyPreload(s.ring), held, multiset{}, PreTokens(s.ring.readyPreload[0].hash));
  }

  lemma PushCopyTokens(g: Ring, c: Copy)
    ensures RingTotal(g.(pendingCopies := g.pendingCopies + [c])) == RingTotal(g) + PendingCopyTokens(c)
  {
    hide Flat, Sum, PendingCopyTokens;
    FlatAppend(g.pendingCopies, c, PendingCopyTokens);
  }

  lemma PushCopyKeeps(s: State, held: multiset<Token>, c: Copy)
    requires Sound(s, held + PendingCopyTokens(c))
    ensures Sound(s.(ring := s.ring.(pendingCopies := s.ring.pendingCopies + [c])), held)
  {
    PushCopyTokens(s.ring, c);
    hide Sound, RingTotal, PendingCopyTokens;
    FreshUd(s, held + PendingCopyTokens(c));
    Nothing(held);
    var g' := s.ring.(pendingCopies := s.ring.pendingCopies + [c]);
    Nothing(RingTotal(g'));
    RingMoves(s, g', held, PendingCopyTokens(c), multiset{});
  }

  lemma PopCopyTokens(g: Ring, k: nat)
    requires k < |g.pendingCopies|
    ensures RingTotal(g) == RingTotal(g.(pendingCopies := RemoveAt(g.pendingCopies, k))) + PendingCopyTokens(g.pendingCopies[k])
  {
    hide Flat, Sum, PendingCopyTokens;
    FlatRemove(g.pendingCopies, k, PendingCopyTokens);
  }

  lemma PopCopyKeeps(s: State, held: multiset<Token>, k: nat)
    requires Sound(s, held) && k < |s.ring.pendingCopies|
    ensures Sound(s.(ring := s.ring.(pendingCopies := RemoveAt(s.ring.pendingCopies, k))), held + PendingCopyTokens(s.ring.pendingCopies[k]))
  {
    PopCopyTokens(s.ring, k);
    hide Sound, RingTotal, PendingCopyTokens;
    FreshUd(s, held);
    Nothing(held);
    Nothing(RingTotal(s.ring));
    RingMoves(s, s.ring.(pendingCopies := RemoveAt(s.ring.pendingCopies, k)), held, multiset{}, PendingCopyTokens(s.ring.pendingCopies[k]));
  }

  lemma CopyReadyTokens(g: Ring)
    ensures RingTotal(g) == RingTotal(g.(copyReady := [])) + Flat(g.copyReady, CopyTokens)
  {
    assert Flat<LoadCopy, Token>([], CopyTokens) == multiset{};
    hide Flat, Sum;
  }

  lemma TakeCopyReadyKeeps(s: State, held: multiset<Token>)
    requires Sound(s, held)
    ensures Sound(s.(ring := s.ring.(copyReady := [])), held + Flat(s.ring.copyReady, CopyTokens))
  {
    CopyReadyTokens(s.ring);
    hide Sound, RingTotal, Flat;
    FreshUd(s, held);
    Nothing(held);
    Nothing(RingTotal(s.ring));
    RingMoves(s, s.ring.(copyReady := []), held, multiset{}, Flat(s.ring.copyReady, CopyTokens));
  }

  lemma ActiveKnown(s: State)
    requires Inv(s)
    ensures forall j :: j in s.work.active ==> j < |s.work.jobs|
  {
    hide Total, SlotPart, BudgetsOk, DemandPart, FilesOnce, JobsOk, Distinct;
  }
}
