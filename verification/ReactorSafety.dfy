/** Every step of the reactor keeps its invariant, and so does every run. */
module ReactorSafety {
  import opened Outcomes
  import opened OrderedKeys
  import opened ReactorState
  import opened ReactorSlots
  import opened Reactor
  import opened ReactorTokens
  import opened ReactorSlotSafety
  import opened ReactorFileSafety
  import opened ReactorDemandSafety
  import opened ReactorMoves
  import opened ReactorDemandMoves
  import SC = StagingCache

  // ---------- What the demand part says in use ----------

  lemma CountsAre(s: State, held: multiset<Token>, h: Hash)
    requires Sound(s, held)
    ensures var t := Total(s) + held;
      && t[TPre(h)] == Count(s.demand.inflightHashes, h)
      && t[TPend(h)] == Count(s.demand.pendingCount, h)
      && (h in s.demand.storeInflight <==> t[TStore(h)] > 0)
  {
    hide Total, SlotPart, FilePart, BudgetsOk, MissingOk, WaitersOk, Unique;
  }

  /** With shared preloading, a hash whose preload is being completed has nothing else. */
  lemma ServingAlone(s: State, held: multiset<Token>, h: Hash)
    requires Sound(s, held + ServeTokens(h)) && s.Cfg().sharePreload
    ensures (Total(s) + held)[TPre(h)] == 0 && (Total(s) + held)[TServe(h)] == 0 && Claims(s.slots, h) == 0
    ensures h !in s.demand.missing && h !in s.demand.blocked
  {
    hide Total, SlotPart, FilePart, BudgetsOk, MissingOk, WaitersOk, Claims;
    var t := Total(s) + (held + ServeTokens(h));
    assert t[TServe(h)] == (Total(s) + held)[TServe(h)] + 1 && t[TPre(h)] == (Total(s) + held)[TPre(h)];
    assert 0 <= Count(s.demand.pendingCancel, h) <= t[TPend(h)];
    assert t[TPend(h)] - Count(s.demand.pendingCancel, h) + t[TPre(h)] + t[TServe(h)] + Claims(s.slots, h) <= 1;
    assert !Absent(s.slots, t, h);
  }

  /** With shared preloading, a parked or missing hash has nothing on its way. */
  lemma ParkedAbsent(s: State, held: multiset<Token>, h: Hash)
    requires Sound(s, held) && s.Cfg().sharePreload && (h in s.demand.blocked || h in s.demand.missing)
    ensures Absent(s.slots, Total(s) + held, h)
    ensures h in s.demand.missing ==> h !in s.demand.blocked
  {
    hide Total, SlotPart, FilePart, BudgetsOk, MissingOk, WaitersOk, Absent;
  }

  lemma ParkedFor(s: State, held: multiset<Token>, h: Hash)
    requires Sound(s, held)
    ensures h in s.demand.blocked ==> AllFor(s.demand.blocked[h], h)
    ensures h in s.demand.missing ==> AllFor(s.demand.missing[h], h)
  {
    hide Total, SlotPart, FilePart, BudgetsOk, CountsOk, WaitersOk, Unique, AllFor;
  }

  // ---------- Files that end ----------

  lemma SplitWait(held: multiset<Token>, a: multiset<Token>, f: FileRef)
    ensures held + a + WaitTokens(f) == held + (a + multiset{TWait(f.hash)}) + FileTokens(f)
    ensures held + WaitTokens(f) == held + multiset{TWait(f.hash)} + FileTokens(f)
  {
  }

  /** A private preload that failed fails one waiting file, if there is one. */
  lemma FailOneKeeps(s: State, held: multiset<Token>, h: Hash)
    requires Sound(s, held + ServeTokens(h)) && !s.Cfg().sharePreload
    requires held[TWait(h)] == 0
    ensures Sound(FailOneWaiter(s, h), held)
  {
    hide Sound, Total, FileTerminal, ServeTokens, PopWaiter, WaitTokens, FileTokens, HasWaiter;
    WaitsCounted(s, h);
    if HasWaiter(s, h) {
      PopWaiterKeeps(s, held + ServeTokens(h), h);
      var (s', f) := PopWaiter(s, h);
      SplitWait(held, ServeTokens(h), f.value);
      FileTerminalKeeps(s', held + (ServeTokens(h) + multiset{TWait(h)}), f.value, false);
      ServedOneKeeps(s'.(work := FileTerminal(s'.work, f.value, false)), held, h);
    } else {
      PopWaiterIs(s, h);
      ServedKeeps(s, held, h);
    }
  }

  /** A shared preload that failed fails every waiting file. */
  lemma {:induction false} FailWaitersKeeps(s: State, held: multiset<Token>, h: Hash)
    requires Sound(s, held) && TServe(h) in held && s.Cfg().sharePreload
    ensures Sound(FailWaiters(s, h), held) && !HasWaiter(FailWaiters(s, h), h)
    ensures var r := FailWaiters(s, h); r == s.(work := r.work, waiters := r.waiters)
    decreases |s.waiters|
  {
    hide Sound, FileTerminal, WaitTokens, FileTokens, HasWaiter, PopWaiter;
    if HasWaiter(s, h) {
      PopWaiterKeeps(s, held, h);
      PopWaiterShorter(s, h);
      var (s', f) := PopWaiter(s, h);
      SplitWait(held, multiset{}, f.value);
      FileTerminalKeeps(s', held + multiset{TWait(h)}, f.value, false);
      var s2 := s'.(work := FileTerminal(s'.work, f.value, false));
      ServeSharedKeeps(s2, held, h);
      FailWaitersKeeps(s2, held, h);
    } else {
      PopWaiterIs(s, h);
    }
  }

  lemma PopWaiterShorter(s: State, h: Hash)
    requires HasWaiter(s, h)
    ensures |PopWaiter(s, h).0.waiters| < |s.waiters|
  {
  }

  /** Delivering to nobody, once nobody waits. */
  lemma NobodyLeft(s: State, held: multiset<Token>, h: Hash)
    requires Sound(s, held + ServeTokens(h)) && !HasWaiter(s, h) && held[TWait(h)] == 0
    ensures Sound(s, held)
  {
    hide Sound, Total, ServeTokens, HasWaiter;
    WaitsCounted(s, h);
    ServedKeeps(s, held, h);
  }

  // ---------- Stores that end ----------

  lemma {:induction false} PendingPushAllKeeps(s: State, held: multiset<Token>, infos: seq<Info>)
    requires Sound(s, held) && !s.Cfg().sharePreload
    ensures Sound(s.(demand := PendingPushAll(s.demand, infos)), held)
  {
    hide Sound, Total, PendingPush;
    if infos == [] {
      assert s.(demand := PendingPushAll(s.demand, infos)) == s;
    } else {
      PendingPushAllKeeps(s, held, infos[..|infos| - 1]);
      PendingPushKeeps(s.(demand := PendingPushAll(s.demand, infos[..|infos| - 1])), held, infos[|infos| - 1]);
    }
  }

  lemma StoreGone(t: multiset<Token>, held: multiset<Token>, z: Slots, h: Hash)
    ensures Absent(z, t + (held + multiset{TStore(h)}), h) ==> Absent(z, t + held, h)
  {
    hide Claims;
  }

  lemma StoreEndedIs(s: State, h: Hash, ok: bool)
    ensures ReleaseStoreInflight(s, h, ok) ==
      var s1 := s.(demand := StoreEnded(s.demand, h));
      if Count(s.demand.storeInflight, h) > 1 || h !in s.demand.blocked || s.demand.blocked[h] == [] || !ok then s1
      else if s.Cfg().hasCache && h in s.slots.cache.slots then
        if s.Cfg().sharePreload then s1.(slots := ForgetDemand(s.slots, h)) else s1
      else if s.Cfg().sharePreload then s1.(demand := PendingPush(s1.demand, s.demand.blocked[h][0]))
      else s1.(demand := PendingPushAll(s1.demand, s.demand.blocked[h]))
  {
    hide PendingPush, PendingPushAll, ForgetDemand, Lower;
  }

  lemma StoreEndedDrops(d: Demand, h: Hash)
    requires Count(d.storeInflight, h) <= 1
    ensures var d' := StoreEnded(d, h); h !in d'.blocked && d'.missing == d.missing
  {
  }

  /** A store's file has ended: the last one wakes, or drops, the demand that was parked on it. */
  lemma ReleaseStoreKeeps(s: State, held: multiset<Token>, h: Hash, ok: bool)
    requires Sound(s, held + multiset{TStore(h)})
    ensures Sound(ReleaseStoreInflight(s, h, ok), held)
  {
    hide Sound, Total, StoreEnded, PendingPush, PendingPushAll, ForgetDemand, ReleaseStoreInflight, Absent, Claims;
    StoreEndedIs(s, h, ok);
    StoreEndedKeeps(s, held, h);
    var s1 := s.(demand := StoreEnded(s.demand, h));
    ParkedFor(s, held + multiset{TStore(h)}, h);
    if Count(s.demand.storeInflight, h) > 1 || h !in s.demand.blocked || s.demand.blocked[h] == [] || !ok {
    } else if !s.Cfg().sharePreload {
      PendingPushAllKeeps(s1, held, s.demand.blocked[h]);
    } else {
      ParkedAbsent(s, held + multiset{TStore(h)}, h);
      StoreGone(Total(s), held, s.slots, h);
      StoreEndedDrops(s.demand, h);
      StoreEndedFrame(s.demand, h);
      DemandTotal(s, s1.demand);
      if s.Cfg().hasCache && h in s.slots.cache.slots {
        AbsentUnclaimed(s1, held, h);
        ForgetDemandKeeps(s1, held, h);
      } else {
        PendingPushKeeps(s1, held, s.demand.blocked[h][0]);
      }
    }
  }

  lemma AbsentUnclaimed(s: State, held: multiset<Token>, h: Hash)
    requires Absent(s.slots, Total(s) + held, h)
    ensures Claims(s.slots, h) == 0
  {
    hide Total, Claims;
  }

  /** The owner of a slot gives up the bytes in it. */
  lemma ForgetBytesKeeps(s: State, held: multiset<Token>, x: Slot, h: Hash)
    requires Sound(s, held + HasTokens(x, h))
    ensures Sound(s, held + BlankTokens(x))
  {
    hide Sound, SlotSound, ClaimsShrink, Outside, Only;
    SlotView(s, held, HasTokens(x, h));
    ForgetBytesSound(s.slots, s.memory, Outside(s) + held, x, h);
    SlotTokensOnly(x, h);
    ShrinkNone(s.slots);
    SlotAction(s, s.slots, s.memory, held, HasTokens(x, h), BlankTokens(x));
    assert s.(slots := s.slots, memory := s.memory) == s;
  }

  lemma ForgetBytesSound(z: Slots, m: map<Slot, Hash>, rest: multiset<Token>, x: Slot, h: Hash)
    requires SlotSound(z, m, rest + HasTokens(x, h))
    ensures SlotSound(z, m, rest + BlankTokens(x))
  {
    hide SlotsTotal, SlotPart;
    var t := SlotsTotal(z) + (rest + HasTokens(x, h));
    BlankInstead(z, m, t, x, THas(x, h));
    assert t - multiset{THas(x, h)} + multiset{TBlank(x)} == SlotsTotal(z) + (rest + BlankTokens(x)) by {
      assert rest + HasTokens(x, h) - multiset{THas(x, h)} == rest + multiset{TSlot(x)};
      assert t - multiset{THas(x, h)} == SlotsTotal(z) + (rest + multiset{TSlot(x)});
    }
  }

  /** A store's file fails: its slot is freed, the file ends, the announced store is withdrawn. */
  lemma StoreFailedKeeps(s: State, held: multiset<Token>, f: FileRef, x: Slot)
    requires Sound(s, held + multiset{TStore(f.hash)} + FileTokens(f) + BlankTokens(x))
    ensures Sound(StoreFailed(s, f, x), held)
  {
    hide Sound, FileTokens, BlankTokens, Release, FileTerminal, ReleaseStoreInflight;
    ReleaseKeeps(s, held + multiset{TStore(f.hash)} + FileTokens(f), x);
    var s1 := s.(slots := Release(s.slots, x));
    FileTerminalKeeps(s1, held + multiset{TStore(f.hash)}, f, false);
    ReleaseStoreKeeps(s1.(work := FileTerminal(s1.work, f, false)), held, f.hash, false);
  }

  // ---------- Copies that end ----------

  lemma SplitCopy(held: multiset<Token>, a: multiset<Token>, c: LoadCopy)
    ensures held + (a + CopyTokens(c)) == held + a + FileTokens(c.file) + SourceTokens(c)
  {
  }

  /** A batch of load copies is over. */
  lemma {:induction false} SettleAllKeeps(s: State, held: multiset<Token>, cs: seq<LoadCopy>, ok: bool)
    requires Sound(s, held + Flat(cs, CopyTokens))
    ensures Sound(SettleAll(s, cs, ok), held)
    decreases |cs|
  {
    hide Sound, Flat, SettleLoadSlot, FileTerminal, CopyTokens, FileTokens, SourceTokens, SettleAll;
    SettleLast(s, cs, ok);
    FlatLast(cs);
    Nothing(held);
    if cs != [] {
      var front, c := cs[..|cs| - 1], cs[|cs| - 1];
      var a := Flat(front, CopyTokens);
      SplitCopy(held, a, c);
      var held1 := held + FileTokens(c.file) + SourceTokens(c);
      assert held + a + FileTokens(c.file) + SourceTokens(c) == held1 + a;
      SettleAllKeeps(s, held1, front, ok);
      var s1 := SettleAll(s, front, ok);
      SettleKeeps(s1, held + FileTokens(c.file), c);
      FileTerminalKeeps(s1.(slots := SettleLoadSlot(s1.slots, c)), held, c.file, ok);
    }
  }

  lemma SettleLast(s: State, cs: seq<LoadCopy>, ok: bool)
    ensures cs == [] ==> SettleAll(s, cs, ok) == s
    ensures cs != [] ==>
      var s1, c := SettleAll(s, cs[..|cs| - 1], ok), cs[|cs| - 1];
      SettleAll(s, cs, ok) == s1.(slots := SettleLoadSlot(s1.slots, c), work := FileTerminal(s1.work, c.file, ok))
  {
    hide SettleLoadSlot, FileTerminal;
  }

  lemma FlatLast(cs: seq<LoadCopy>)
    ensures Flat(cs, CopyTokens) == if cs == [] then multiset{} else Flat(cs[..|cs| - 1], CopyTokens) + CopyTokens(cs[|cs| - 1])
  {
  }

  lemma FlushKeeps(s: State, launched: bool)
    requires Inv(s)
    ensures Inv(FlushCopies(s, launched))
  {
    hide Sound, Flat;
    TakeCopyReadyKeeps(s, multiset{});
    var s1 := s.(ring := s.ring.(copyReady := []));
    if launched {
      PushCopyKeeps(s1, multiset{}, LoadBatch(s.ring.copyReady));
    } else {
      SettleAllKeeps(s1, multiset{}, s.ring.copyReady, false);
    }
  }

  lemma StoreCopyTokens(f: FileRef, x: Slot)
    ensures PendingCopyTokens(StoreCopy(f, x)) == multiset{TData, TStore(f.hash)} + FileTokens(f) + BlankTokens(x)
    ensures multiset{TData} + multiset{TStore(f.hash)} + FileTokens(f) + BlankTokens(x)
         == multiset{TStore(f.hash)} + FileTokens(f) + BlankTokens(x) + multiset{TData}
    ensures multiset{TData, TStore(f.hash)} + FileTokens(f) + BlankTokens(x)
         == multiset{TStore(f.hash)} + FileTokens(f) + BlankTokens(x) + multiset{TData}
  {
  }

  lemma WriteTokens(ud: nat, f: FileRef, x: Slot)
    ensures OpTokens(ud, Write(f, x)) == multiset{TData, TStore(f.hash)} + FileTokens(f) + HasTokens(x, f.hash)
    ensures OpTokens(ud, Write(f, x)) == multiset{TStore(f.hash)} + FileTokens(f) + HasTokens(x, f.hash) + multiset{TData}
  {
  }

  lemma StoreCopyDoneKeeps(s: State, f: FileRef, x: Slot, tempOk: bool, queued: bool)
    requires Sound(s, multiset{TData, TStore(f.hash)} + FileTokens(f) + HasTokens(x, f.hash))
    ensures Inv(StoreCopyDone(s, f, x, tempOk, queued))
  {
    hide Sound, FileTokens, HasTokens, BlankTokens, OpTokens, StoreFailed;
    WriteTokens(s.ring.nextUd, f, x);
    Nothing(OpTokens(s.ring.nextUd, Write(f, x)));
    if tempOk && queued {
      SubmitKeeps(s, multiset{}, Write(f, x));
    } else {
      var held := multiset{TStore(f.hash)} + FileTokens(f) + HasTokens(x, f.hash);
      if tempOk { RefusedKeeps(s, held + multiset{TData}); }
      var s1 := s.(ring := if tempOk then Refused(s.ring) else s.ring);
      GiveData(s1, held);
      var s2 := s1.(ring := AddData(s1.ring, -1));
      ForgetBytesKeeps(s2, multiset{TStore(f.hash)} + FileTokens(f), x, f.hash);
      Nothing(multiset{TStore(f.hash)});
      StoreFailedKeeps(s2, multiset{}, f, x);
    }
  }

  lemma CopyDoneKeeps(s: State, k: nat, tempOk: bool, queued: bool)
    requires Inv(s) && k < |s.ring.pendingCopies|
    ensures Inv(CopyDone(s, k, tempOk, queued))
  {
    hide Sound, FileTokens, HasTokens, BlankTokens, StoreCopyDone, SettleAll, Flat;
    PopCopyKeeps(s, multiset{}, k);
    var s1 := s.(ring := s.ring.(pendingCopies := RemoveAt(s.ring.pendingCopies, k)));
    match s.ring.pendingCopies[k]
    case LoadBatch(members) => SettleAllKeeps(s1, multiset{}, members, true);
    case StoreCopy(f, x) =>
      StoreCopyTokens(f, x);
      var held := multiset{TData, TStore(f.hash)} + FileTokens(f);
      Nothing(held + BlankTokens(x));
      FillKeeps(s1, held, x, f.hash);
      StoreCopyDoneKeeps(s1.(memory := s1.memory[x := f.hash]), f, x, tempOk, queued);
  }

  // ---------- Opens that complete ----------

  lemma OpTokensAre(ud: nat, f: FileRef, info: Info, x: Slot)
    ensures OpTokens(ud, OpenLoad(f)) == FileTokens(f) + multiset{TOpen}
    ensures OpTokens(ud, OpenPreload(info)) == PreTokens(info.hash) + multiset{TOpen}
    ensures OpTokens(ud, ReadLoad(f, x)) == FileTokens(f) + BlankTokens(x) + multiset{TData}
    ensures OpTokens(ud, ReadPreload(info, x)) == PreTokens(info.hash) + BlankTokens(x) + multiset{TData}
  {
  }

  lemma OpenLoadDoneKeeps(s: State, f: FileRef, ok: bool)
    requires Sound(s, FileTokens(f)) && CanOpen(s)
    ensures Inv(OpenLoadDone(s, f, ok))
  {
    hide Sound, FileTokens, FileTerminal;
    Nothing(FileTokens(f));
    if ok { PushReadyLoadKeeps(s, multiset{}, f); } else { FileTerminalKeeps(s, multiset{}, f, false); }
  }

  /** A preload whose file is missing, with nobody waiting, is remembered or parked. */
  lemma PreloadMissedKeeps(s: State, held: multiset<Token>, info: Info)
    requires Sound(s, held)
    requires s.Cfg().sharePreload ==> Absent(s.slots, Total(s) + held, info.hash)
    requires s.Cfg().sharePreload ==> info.hash !in s.demand.missing && info.hash !in s.demand.blocked
    ensures Sound(s.(demand := PreloadMissed(s.demand, info)), held)
  {
    hide Sound, Total, Absent, RememberMissing;
    if info.hash in s.demand.storeInflight {
      BlockKeeps(s, held, info.hash, [info]);
    } else {
      RememberKeeps(s, held, info);
    }
  }

  lemma NothingElse(s: State, held: multiset<Token>, h: Hash)
    requires (Total(s) + held)[TPre(h)] == 0 && (Total(s) + held)[TServe(h)] == 0 && (Total(s) + held)[TPend(h)] == 0
    requires Claims(s.slots, h) == 0
    ensures Absent(s.slots, Total(s) + held, h)
  {
    hide Total, Claims;
  }

  lemma PreloadOpenFailedKeeps(s: State, held: multiset<Token>, info: Info)
    requires Sound(s, held + PreTokens(info.hash)) && held[TWait(info.hash)] == 0 && held[TServe(info.hash)] == 0
    ensures Sound(PreloadOpenFailed(s, info), held)
  {
    hide Sound, Total, Absent, PreloadMissed, FailWaiters, FailOneWaiter, InflightRemove, HasWaiter, PreTokens, Claims;
    var h := info.hash;
    DeliverKeeps(s, held, h);
    var s1 := s.(demand := InflightRemove(s.demand, h));
    SameWaiters(s, InflightRemove(s.demand, h));
    if !HasWaiter(s1, h) {
      WaitsCounted(s, h);
      InflightRemoveTotal(s, h);
      if s.Cfg().sharePreload {
        ServingAlone(s1, held, h);
        NothingElse(s1, held, h);
      }
      NobodyLeft(s1, held, h);
      PreloadMissedKeeps(s1, held, info);
    } else if s.Cfg().sharePreload {
      ServeIn(held, h);
      FailWaitersKeeps(s1, held + ServeTokens(h), h);
      NobodyLeft(FailWaiters(s1, h), held, h);
    } else {
      FailOneKeeps(s1, held, h);
    }
  }

  lemma ServeIn(held: multiset<Token>, h: Hash)
    ensures TServe(h) in held + ServeTokens(h)
  {
  }

  lemma SameWaiters(s: State, d': Demand)
    ensures forall h: Hash :: HasWaiter(s.(demand := d'), h) == HasWaiter(s, h)
  {
  }

  lemma InflightRemoveTotal(s: State, h: Hash)
    ensures Total(s.(demand := InflightRemove(s.demand, h))) == Total(s)
  {
    hide RingTotal, WorkTotal, SlotsTotal, Lower, Flat;
  }

  lemma OpenPreloadDoneKeeps(s: State, info: Info, ok: bool)
    requires Sound(s, PreTokens(info.hash)) && CanOpen(s)
    ensures Inv(OpenPreloadDone(s, info, ok))
  {
    hide Sound, PreTokens, PreloadOpenFailed;
    Nothing(PreTokens(info.hash));
    if ok { PushReadyPreloadKeeps(s, multiset{}, info); } else { PreloadOpenFailedKeeps(s, multiset{}, info); }
  }

  // ---------- Reads that complete ----------

  lemma OwnedTokens(f: FileRef, x: Slot)
    ensures CopyTokens(LoadCopy(f, x, Owned)) == FileTokens(f) + HasTokens(x, f.hash)
    ensures CopyTokens(LoadCopy(f, x, Shared)) == FileTokens(f) + multiset{TShared(x, f.hash)}
    ensures CopyTokens(LoadCopy(f, x, Cached)) == FileTokens(f) + multiset{TPin(f.hash, x)}
  {
  }

  lemma ReadLoadDoneKeeps(s: State, f: FileRef, x: Slot, ok: bool)
    requires Sound(s, FileTokens(f) + BlankTokens(x))
    ensures Inv(ReadLoadDone(s, f, x, ok))
  {
    hide Sound, FileTokens, BlankTokens, HasTokens, FileTerminal, Release, CopyTokens;
    Nothing(FileTokens(f));
    if ok {
      FillKeeps(s, FileTokens(f), x, f.hash);
      OwnedTokens(f, x);
      Nothing(FileTokens(f) + HasTokens(x, f.hash));
      QueueCopyKeeps(s.(memory := s.memory[x := f.hash]), multiset{}, f, x, Owned);
    } else {
      ReleaseKeeps(s, FileTokens(f), x);
      FileTerminalKeeps(s.(slots := Release(s.slots, x)), multiset{}, f, false);
    }
  }

  lemma NoWaits(h: Hash, x: Slot)
    ensures BlankTokens(x)[TWait(h)] == 0 && HasTokens(x, h)[TWait(h)] == 0 && ServeTokens(h)[TWait(h)] == 0
    ensures multiset{THandle(x)}[TWait(h)] == 0 && BlankTokens(x)[TServe(h)] == 0 && multiset{}[TWait(h)] == 0
  {
  }

  lemma ReleaseCfg(z: Slots, x: Slot)
    ensures Release(z, x).cfg == z.cfg
  {
  }

  lemma PrivateReadDoneKeeps(s: State, info: Info, x: Slot, ok: bool)
    requires Sound(s, PreTokens(info.hash) + BlankTokens(x)) && !s.Cfg().sharePreload
    ensures Inv(PrivateReadDone(s, info, x, ok))
  {
    hide Sound, PreTokens, BlankTokens, HasTokens, ServeTokens, InflightRemove, Release, FailOneWaiter, PopWaiter, HasWaiter, CopyTokens,
      FileTokens, WaitTokens, PreloadPush, Total;
    var h := info.hash;
    assert PreTokens(h) + BlankTokens(x) == BlankTokens(x) + PreTokens(h);
    DeliverKeeps(s, BlankTokens(x), h);
    var s1 := s.(demand := InflightRemove(s.demand, h));
    NoWaits(h, x);
    assert BlankTokens(x) + ServeTokens(h) == ServeTokens(h) + BlankTokens(x);
    Nothing(ServeTokens(h));
    if ok {
      FillKeeps(s1, ServeTokens(h), x, h);
      PrivateDeliverKeeps(s1.(memory := s1.memory[x := h]), info, x);
    } else {
      ReleaseKeeps(s1, ServeTokens(h), x);
      ReleaseCfg(s1.slots, x);
      FailOneKeeps(s1.(slots := Release(s1.slots, x)), multiset{}, h);
    }
  }

  /** A finished private read goes to the first waiting file, or is kept. */
  lemma PrivateDeliverKeeps(s: State, info: Info, x: Slot)
    requires Sound(s, ServeTokens(info.hash) + HasTokens(x, info.hash)) && !s.Cfg().sharePreload
    ensures Inv(PrivateDelivered(s, info, x))
  {
    hide Sound, HasTokens, ServeTokens, PopWaiter, HasWaiter, CopyTokens, FileTokens, WaitTokens, PreloadPush, Total, QueueLoadCopy;
    var h := info.hash;
    var held := ServeTokens(h) + HasTokens(x, h);
    if HasWaiter(s, h) {
      PopWaiterKeeps(s, held, h);
      var (s2, f) := PopWaiter(s, h);
      SplitWait(HasTokens(x, h), ServeTokens(h), f.value);
      assert held == HasTokens(x, h) + ServeTokens(h);
      var held2 := HasTokens(x, h) + FileTokens(f.value);
      assert HasTokens(x, h) + (ServeTokens(h) + multiset{TWait(h)}) + FileTokens(f.value) == held2 + (ServeTokens(h) + multiset{TWait(h)});
      ServedOneKeeps(s2, held2, h);
      OwnedTokens(f.value, x);
      Nothing(CopyTokens(LoadCopy(f.value, x, Owned)));
      assert held2 == CopyTokens(LoadCopy(f.value, x, Owned));
      QueueCopyKeeps(s2, multiset{}, f.value, x, Owned);
    } else {
      PopWaiterIs(s, h);
      WaitsCounted(s, h);
      Nothing(HasTokens(x, h));
      Nothing(Total(s));
      assert held == multiset{} + HasTokens(x, h) + ServeTokens(h);
      KeptKeeps(s, multiset{}, x, info);
    }
  }

  lemma ClaimableOnlyShared(z: Slots, z': Slots, h: Hash)
    requires z'.shared == z.shared && z'.sharedCached == z.sharedCached
    ensures Claimable(z', h) == Claimable(z, h)
  {
  }

  /** Nobody can claim the hash, so withdrawing demand for it touches no slot. */
  lemma DecrefUnclaimed(s: State, held: multiset<Token>, r: ReqId, h: Hash)
    requires Sound(s, held) && Claims(s.slots, h) == 0
    ensures var z' := Decref(s.slots, r, h); z' == s.slots.(owned := z'.owned, refcount := z'.refcount)
  {
    hide Sound, SlotSound, Outside, Claims, MaybeReleaseShared, Uncache, Claimable;
    SlotNow(s, held);
    var z2 := s.slots.(owned := Without(s.slots.owned, (r, h)), refcount := s.slots.refcount - {h});
    ClaimableMeansClaimed(s.slots, s.memory, Outside(s) + held, h);
    ClaimableOnlyShared(s.slots, z2, h);
  }

  /** The object of a shared read that is being delivered. */
  ghost predicate Delivering(z: Slots, h: Hash, x: Slot) {
    x in z.shared && z.shared[x].hash == h && !z.shared[x].cached && Claims(z, h) == 0
  }

  lemma StillDelivering(z: Slots, z': Slots, h: Hash, x: Slot)
    requires Delivering(z, h, x)
    requires z'.sharedCached == z.sharedCached && z'.shared == AddCopies(z, x, 1).shared
    ensures Delivering(z', h, x)
  {
  }

  /** Every file waiting for the hash gets a copy from the shared slot. */
  lemma {:induction false} ServeWaitersKeeps(s: State, h: Hash, x: Slot)
    requires Sound(s, multiset{THandle(x)} + ServeTokens(h)) && s.Cfg().sharePreload && Delivering(s.slots, h, x)
    ensures var r := ServeWaiters(s, h, x);
      && Sound(r, multiset{THandle(x)} + ServeTokens(h)) && r.Cfg().sharePreload && Delivering(r.slots, h, x)
      && !HasWaiter(r, h)
    decreases |s.waiters|
  {
    hide Sound, WaitTokens, FileTokens, HasWaiter, PopWaiter, QueueLoadCopy, Decref, AddCopies, Delivering, ServeTokens, ServeWaiters;
    ServeIs(s, h, x);
    if HasWaiter(s, h) {
      ServeOneKeeps(s, h, x);
      PopWaiterShorter(s, h);
      ServeWaitersKeeps(Served(s, h, x), h, x);
    }
  }

  lemma ServeOneKeeps(s: State, h: Hash, x: Slot)
    requires Sound(s, multiset{THandle(x)} + ServeTokens(h)) && s.Cfg().sharePreload && Delivering(s.slots, h, x) && HasWaiter(s, h)
    ensures var r := Served(s, h, x);
      && Sound(r, multiset{THandle(x)} + ServeTokens(h)) && r.Cfg().sharePreload && Delivering(r.slots, h, x)
      && r.waiters == PopWaiter(s, h).0.waiters
  {
    hide Sound, WaitTokens, FileTokens, HasWaiter, PopWaiter, Decref, ServeTokens, CopyTokens, Claims;
    var held := multiset{THandle(x)} + ServeTokens(h);
    PopWaiterKeeps(s, held, h);
    var (s1, o) := PopWaiter(s, h);
    var f := o.value;
    SplitWait(held, multiset{}, f);
    assert held + multiset{TWait(h)} + FileTokens(f) == held + FileTokens(f) + multiset{TWait(h)};
    ServeIn(multiset{THandle(x)} , h);
    assert TServe(h) in held + FileTokens(f);
    ServeSharedKeeps(s1, held + FileTokens(f), h);
    AddCopyKeeps(s1, held + FileTokens(f), x);
    var s2 := s1.(slots := AddCopies(s1.slots, x, 1));
    OwnedTokens(f, x);
    assert held + FileTokens(f) + multiset{TShared(x, h)} == held + CopyTokens(LoadCopy(f, x, Shared));
    QueueCopyKeeps(s2, held, f, x, Shared);
    var s3 := s2.(ring := QueueLoadCopy(s2.ring, f, x, Shared));
    StillDelivering(s1.slots, s3.slots, h, x);
    DecrefKeeps(s3, held, RequestOf(s.work, f), h);
    DecrefUnclaimed(s3, held, RequestOf(s.work, f), h);
    ClaimsOnlyShared(s3.slots, Decref(s3.slots, RequestOf(s.work, f), h));
  }

  lemma SharedReadDoneKeeps(s: State, info: Info, x: Slot, ok: bool)
    requires Sound(s, PreTokens(info.hash) + BlankTokens(x)) && s.Cfg().sharePreload
    ensures Inv(SharedReadDone(s, info, x, ok))
  {
    hide Sound, PreTokens, BlankTokens, HasTokens, ServeTokens, InflightRemove, Release, FailWaiters, HasWaiter, ServeWaiters,
      KeepOrRelease, Total, Claims;
    var h := info.hash;
    assert PreTokens(h) + BlankTokens(x) == BlankTokens(x) + PreTokens(h);
    DeliverKeeps(s, BlankTokens(x), h);
    var s1 := s.(demand := InflightRemove(s.demand, h));
    NoWaits(h, x);
    assert BlankTokens(x) + ServeTokens(h) == ServeTokens(h) + BlankTokens(x);
    if ok {
      FillKeeps(s1, ServeTokens(h), x, h);
      SharedDeliverKeeps(s1.(memory := s1.memory[x := h]), h, x);
    } else {
      ServeIn(BlankTokens(x), h);
      FailWaitersKeeps(s1, BlankTokens(x) + ServeTokens(h), h);
      var s2 := FailWaiters(s1, h);
      NobodyLeft(s2, BlankTokens(x), h);
      Nothing(BlankTokens(x));
      ReleaseKeeps(s2, multiset{}, x);
    }
  }

  /** A finished shared read serves its waiting files, then becomes claimable or goes. */
  lemma SharedDeliverKeeps(s: State, h: Hash, x: Slot)
    requires Sound(s, ServeTokens(h) + HasTokens(x, h)) && s.Cfg().sharePreload
    ensures var z := s.slots.(shared := s.slots.shared[x := SharedSlot(h, 0, false)]);
      var s2 := ServeWaiters(s.(slots := z), h, x);
      Inv(s2.(slots := KeepOrRelease(s2.slots, h, x)))
  {
    hide Sound, HasTokens, ServeTokens, HasWaiter, ServeWaiters, Total, Claims, KeepOrRelease;
    NewSharedKeeps(s, ServeTokens(h), x, h);
    var s1 := s.(slots := NewShared(s.slots, x, h));
    assert ServeTokens(h) + multiset{THandle(x)} == multiset{THandle(x)} + ServeTokens(h);
    ServingAlone(s1, multiset{THandle(x)}, h);
    ServeWaitersKeeps(s1, h, x);
    var s2 := ServeWaiters(s1, h, x);
    KeepOrReleaseKeeps(s2, h, x);
  }

  lemma KeepOrReleaseKeeps(s: State, h: Hash, x: Slot)
    requires Sound(s, multiset{THandle(x)} + ServeTokens(h)) && s.Cfg().sharePreload && Delivering(s.slots, h, x) && !HasWaiter(s, h)
    ensures Inv(s.(slots := KeepOrRelease(s.slots, h, x)))
  {
    hide Sound, ServeTokens, HasWaiter, Total, Claims, Install, MaybeReleaseShared;
    NoWaits(h, x);
    WaitsCounted(s, h);
    Nothing(Total(s));
    Nothing(multiset{THandle(x)});
    if Count(s.slots.refcount, h) > 0 {
      InstallKeeps(s, multiset{}, x, h);
    } else {
      NobodyLeft(s, multiset{THandle(x)}, h);
      MaybeReleaseKeeps(s, multiset{}, x);
    }
  }

  lemma WriteDoneKeeps(s: State, f: FileRef, x: Slot, ok: bool)
    requires Sound(s, multiset{TStore(f.hash)} + FileTokens(f) + HasTokens(x, f.hash))
    ensures Inv(WriteDone(s, f, x, ok))
  {
    hide Sound, FileTokens, HasTokens, BlankTokens, StoreFailed, ReleaseOrCache, FileTerminal, ReleaseStoreInflight;
    Nothing(multiset{TStore(f.hash)});
    if ok {
      ReleaseOrCacheKeeps(s, multiset{TStore(f.hash)} + FileTokens(f), f.hash, x);
      var s1 := s.(slots := ReleaseOrCache(s.slots, f.hash, x));
      FileTerminalKeeps(s1, multiset{TStore(f.hash)}, f, true);
      ReleaseStoreKeeps(s1.(work := FileTerminal(s1.work, f, true)), multiset{}, f.hash, true);
    } else {
      ForgetBytesKeeps(s, multiset{TStore(f.hash)} + FileTokens(f), x, f.hash);
      StoreFailedKeeps(s, multiset{}, f, x);
    }
  }

  lemma ReadDoneKeeps(s: State, op: Op, ok: bool, closed: bool)
    requires op.ReadLoad? || op.ReadPreload?
    requires Sound(s, if op.ReadLoad? then FileTokens(op.file) + BlankTokens(op.slot) else PreTokens(op.info.hash) + BlankTokens(op.slot))
    ensures Inv(Closing(if op.ReadLoad? then ReadLoadDone(s, op.file, op.slot, ok) else ReadPreloadDone(s, op.info, op.slot, ok), closed))
  {
    hide Sound, FileTokens, BlankTokens, PreTokens, ReadLoadDone, SharedReadDone, PrivateReadDone, AsyncClose;
    if op.ReadLoad? {
      ReadLoadDoneKeeps(s, op.file, op.slot, ok);
      AsyncCloseKeeps(ReadLoadDone(s, op.file, op.slot, ok), multiset{}, closed);
    } else {
      if s.Cfg().sharePreload { SharedReadDoneKeeps(s, op.info, op.slot, ok); } else { PrivateReadDoneKeeps(s, op.info, op.slot, ok); }
      AsyncCloseKeeps(ReadPreloadDone(s, op.info, op.slot, ok), multiset{}, closed);
    }
  }

  lemma OpDoneKeeps(s: State, ud: nat, op: Op, ok: bool, closed: bool)
    requires Sound(s, OpTokens(ud, op))
    ensures Inv(OpDone(s, op, ok, closed))
  {
    hide Sound, FileTokens, BlankTokens, PreTokens, HasTokens, OpTokens, OpenLoadDone, OpenPreloadDone, ReadLoadDone, ReadPreloadDone,
      WriteDone, Closing, CanOpen;
    match op
    case OpenLoad(f) =>
      OpTokensAre(ud, f, Info(0, 0), 0);
      GiveOpen(s, FileTokens(f));
      OpenLoadDoneKeeps(s.(ring := AddOpen(s.ring, -1)), f, ok);
    case OpenPreload(info) =>
      OpTokensAre(ud, FileRef(0, 0, 0), info, 0);
      GiveOpen(s, PreTokens(info.hash));
      OpenPreloadDoneKeeps(s.(ring := AddOpen(s.ring, -1)), info, ok);
    case ReadLoad(f, x) =>
      OpTokensAre(ud, f, Info(0, 0), x);
      GiveData(s, FileTokens(f) + BlankTokens(x));
      ReadDoneKeeps(s.(ring := AddData(s.ring, -1)), op, ok, closed);
    case ReadPreload(info, x) =>
      OpTokensAre(ud, FileRef(0, 0, 0), info, x);
      GiveData(s, PreTokens(info.hash) + BlankTokens(x));
      ReadDoneKeeps(s.(ring := AddData(s.ring, -1)), op, ok, closed);
    case Write(f, x) =>
      WriteTokens(ud, f, x);
      GiveData(s, multiset{TStore(f.hash)} + FileTokens(f) + HasTokens(x, f.hash));
      WriteDoneKeeps(s.(ring := AddData(s.ring, -1)), f, x, ok);
    case Close =>
      CloseTokens(ud);
  }

  lemma CloseTokens(ud: nat)
    ensures OpTokens(ud, Close) == multiset{}
  {
  }

  lemma OpCompletesKeeps(s: State, ud: nat, ok: bool, closed: bool)
    requires Inv(s) && ud in s.ring.inflight
    ensures Inv(OpCompletes(s, ud, ok, closed))
  {
    hide Sound, OpTokens, OpDone;
    ReapKeeps(s, multiset{}, ud);
    Nothing(OpTokens(ud, s.ring.inflight[ud]));
    OpDoneKeeps(s.(ring := s.ring.(inflight := s.ring.inflight - {ud})), ud, s.ring.inflight[ud], ok, closed);
  }

  // ---------- Scheduling loads ----------

  lemma LoadStarts(w: Work, j: JobId)
    requires Unfinished(w, j) && !w.jobs[j].isStore
    ensures StartTokens(w, j) == multiset{}
  {
  }

  /** The next file of a load is under way. */
  lemma StartLoadKeeps(s: State, held: multiset<Token>, j: JobId)
    requires Sound(s, held) && Schedulable(s.work, j) && !s.work.jobs[j].isStore
    ensures Sound(s.(work := StartFile(s.work, j)), held + FileTokens(NextFile(s.work, j)))
  {
    hide Sound, FileTokens, StartTokens, StartFile;
    StartFileKeeps(s, held, j);
    LoadStarts(s.work, j);
    Nothing(held + FileTokens(NextFile(s.work, j)));
  }

  lemma CacheHitKeeps(s: State, j: JobId)
    requires Inv(s) && Schedulable(s.work, j) && !s.work.jobs[j].isStore && NextFile(s.work, j).hash in s.slots.cache.slots
    ensures Inv(CacheHit(s, j, s.slots.cache.slots[NextFile(s.work, j).hash].slotIndex))
  {
    hide Sound, FileTokens, StartFile, QueueLoadCopy, CopyTokens, SC.Pin;
    var f := NextFile(s.work, j);
    var x := s.slots.cache.slots[f.hash].slotIndex;
    PinKeeps(s, multiset{}, f.hash);
    var s1 := s.(slots := s.slots.(cache := SC.Pin(s.slots.cache, f.hash)));
    Nothing(multiset{TPin(f.hash, x)});
    StartLoadKeeps(s1, multiset{TPin(f.hash, x)}, j);
    var s2 := s1.(work := StartFile(s1.work, j));
    OwnedTokens(f, x);
    assert multiset{TPin(f.hash, x)} + FileTokens(f) == CopyTokens(LoadCopy(f, x, Cached));
    Nothing(CopyTokens(LoadCopy(f, x, Cached)));
    QueueCopyKeeps(s2, multiset{}, f, x, Cached);
  }

  lemma ClaimSharedKeeps(s: State, j: JobId, x: Slot)
    requires Inv(s) && Schedulable(s.work, j) && !s.work.jobs[j].isStore
    requires Claimable(s.slots, NextFile(s.work, j).hash) == Some(x)
    ensures Inv(ClaimShared(s, j, x))
  {
    hide Sound, FileTokens, StartFile, QueueLoadCopy, CopyTokens, AddCopies, Decref, SlotSound, Outside, Claimable;
    var f := NextFile(s.work, j);
    SlotNow(s, multiset{});
    ClaimableMeansClaimed(s.slots, s.memory, Outside(s) + multiset{}, f.hash);
    AddCopyKeeps(s, multiset{}, x);
    var s1 := s.(slots := AddCopies(s.slots, x, 1));
    var e := multiset{TShared(x, f.hash)};
    Nothing(e);
    StartLoadKeeps(s1, e, j);
    var s2 := s1.(work := StartFile(s1.work, j));
    OwnedTokens(f, x);
    assert e + FileTokens(f) == CopyTokens(LoadCopy(f, x, Shared));
    Nothing(CopyTokens(LoadCopy(f, x, Shared)));
    QueueCopyKeeps(s2, multiset{}, f, x, Shared);
    DecrefKeeps(s2.(ring := QueueLoadCopy(s2.ring, f, x, Shared)), multiset{}, s.work.jobs[j].reqId, f.hash);
  }

  lemma ClaimPrivateKeeps(s: State, j: JobId)
    requires Inv(s) && Schedulable(s.work, j) && !s.work.jobs[j].isStore && HasPrivateCopy(s.slots, NextFile(s.work, j).hash)
    ensures Inv(ClaimPrivate(s, j))
  {
    hide Sound, FileTokens, HasTokens, StartFile, QueueLoadCopy, CopyTokens, PreloadPop, HasPrivateCopy;
    var f := NextFile(s.work, j);
    PreloadPopKeeps(s, multiset{}, f.hash);
    var (z, e) := PreloadPop(s.slots, f.hash);
    var x := e.value.slot;
    var s1 := s.(slots := z);
    Nothing(HasTokens(x, f.hash));
    StartLoadKeeps(s1, HasTokens(x, f.hash), j);
    OwnedTokens(f, x);
    assert HasTokens(x, f.hash) + FileTokens(f) == CopyTokens(LoadCopy(f, x, Owned));
    Nothing(CopyTokens(LoadCopy(f, x, Owned)));
    QueueCopyKeeps(s1.(work := StartFile(s1.work, j)), multiset{}, f, x, Owned);
  }

  lemma OpenForLoadKeeps(s: State, j: JobId, queued: bool)
    requires Inv(s) && Schedulable(s.work, j) && !s.work.jobs[j].isStore && CanOpen(s)
    ensures Inv(OpenForLoad(s, j, queued))
  {
    hide Sound, FileTokens, StartFile, OpTokens, FileTerminal, Refused;
    var f := NextFile(s.work, j);
    StartLoadKeeps(s, multiset{}, j);
    var s1 := s.(work := StartFile(s.work, j));
    Nothing(FileTokens(f));
    if queued {
      TakeOpen(s1, FileTokens(f));
      var s2 := s1.(ring := AddOpen(s1.ring, 1));
      OpTokensAre(s2.ring.nextUd, f, Info(0, 0), 0);
      Nothing(OpTokens(s2.ring.nextUd, OpenLoad(f)));
      SubmitKeeps(s2, multiset{}, OpenLoad(f));
    } else {
      RefusedKeeps(s1, FileTokens(f));
      FileTerminalKeeps(s1.(ring := Refused(s1.ring)), multiset{}, f, false);
    }
  }

  lemma FileIsWait(held: multiset<Token>, f: FileRef)
    ensures held + multiset{TWait(f.hash)} + FileTokens(f) == held + WaitTokens(f)
    ensures WaitTokens(f) == multiset{TWait(f.hash)} + FileTokens(f)
  {
  }

  /** The counts of waiting files and preloads under way, as the scheduler sees them. */
  lemma RoomToWait(s: State, h: Hash)
    requires Inv(s)
    ensures var t := Total(s) + multiset{};
      && (HasInflight(s.demand, h) ==> t[TPre(h)] > 0)
      && (WaiterCount(s.waiters, h) < Count(s.demand.inflightHashes, h) ==> t[TWait(h)] < t[TPre(h)])
  {
    hide Sound, Total, WaiterCount;
    CountsAre(s, multiset{}, h);
    WaitsCounted(s, h);
    Nothing(Total(s));
  }

  lemma WaitForInflightKeeps(s: State, j: JobId)
    requires Inv(s) && Schedulable(s.work, j) && !s.work.jobs[j].isStore
    requires var h := NextFile(s.work, j).hash;
      HasInflight(s.demand, h) && (!s.Cfg().sharePreload ==> WaiterCount(s.waiters, h) < Count(s.demand.inflightHashes, h))
    ensures Inv(WaitForInflight(s, j))
  {
    hide Sound, FileTokens, StartFile, WaitTokens, Total, WaiterCount, HasInflight;
    var f := NextFile(s.work, j);
    RoomToWait(s, f.hash);
    WaitKeeps(s, multiset{}, f.hash);
    Nothing(multiset{TWait(f.hash)});
    StartLoadKeeps(s, multiset{TWait(f.hash)}, j);
    FileIsWait(multiset{}, f);
    Nothing(WaitTokens(f));
    PushWaiterKeeps(s.(work := StartFile(s.work, j)), multiset{}, f);
  }

  /** Nothing but cancelled entries stands in the way of promoting. */
  lemma MayPromote(s: State, h: Hash)
    requires Inv(s) && s.Cfg().sharePreload && Claimable(s.slots, h).None? && !HasInflight(s.demand, h)
    requires Count(s.demand.pendingCount, h) > 0
    ensures var s1 := s.(demand := CancelOnePending(s.demand, h));
      Inv(s1) && MayOpen(s1.slots, s1.demand, Total(s1) + multiset{}, h)
  {
    hide Sound, Total, SlotSound, Outside, Claimable, Absent, Claims, CancelOnePending;
    CancelKeeps(s, multiset{}, h);
    var s1 := s.(demand := CancelOnePending(s.demand, h));
    CancelFrame(s.demand, h);
    CountsAre(s1, multiset{}, h);
    SlotNow(s, multiset{});
    ClaimableMeansClaimed(s.slots, s.memory, Outside(s) + multiset{}, h);
    NoneServing(s1, h);
    Nothing(Total(s1));
    DemandTotal(s, s1.demand);
    if h in s1.demand.missing || h in s1.demand.blocked {
      ParkedAbsent(s1, multiset{}, h);
      PendingPresent(s1, h);
    }
  }

  lemma PendingPresent(s: State, h: Hash)
    requires Absent(s.slots, Total(s) + multiset{}, h)
    ensures (Total(s) + multiset{})[TPend(h)] == 0
  {
    hide Total, Claims;
  }

  lemma CancelFrame(d: Demand, h: Hash)
    ensures CancelOnePending(d, h) == d.(pendingCancel := CancelOnePending(d, h).pendingCancel)
  {
  }

  /** A load opens a queued preload itself. */
  lemma PromotePendingKeeps(s: State, j: JobId)
    requires Inv(s) && Schedulable(s.work, j) && !s.work.jobs[j].isStore && CanOpen(s)
    requires var h := NextFile(s.work, j).hash;
      && s.Cfg().sharePreload && Claimable(s.slots, h).None? && !HasInflight(s.demand, h) && Count(s.demand.pendingCount, h) > 0
    ensures Inv(PromotePending(s, j, true))
  {
    hide Sound, FileTokens, StartFile, WaitTokens, Total, OpTokens, Claimable, HasInflight, CancelOnePending, MayOpen, PreTokens, InflightAdd;
    var f := NextFile(s.work, j);
    var h, info := f.hash, Info(f.hash, s.work.jobs[j].reqId);
    MayPromote(s, h);
    var s1 := s.(demand := CancelOnePending(s.demand, h));
    PromoteKeeps(s1, multiset{}, h);
    var s2 := s1.(demand := InflightAdd(s1.demand, h));
    var w := multiset{TWait(h)};
    Nothing(PreTokens(h) + w);
    TakeOpen(s2, PreTokens(h) + w);
    var s3 := s2.(ring := AddOpen(s2.ring, 1));
    OpTokensAre(s3.ring.nextUd, f, info, 0);
    assert PreTokens(h) + w + multiset{TOpen} == w + OpTokens(s3.ring.nextUd, OpenPreload(info));
    SubmitKeeps(s3, w, OpenPreload(info));
    var s4 := s3.(ring := Submit(s3.ring, OpenPreload(info)));
    StartLoadKeeps(s4, w, j);
    FileIsWait(multiset{}, f);
    Nothing(WaitTokens(f));
    PushWaiterKeeps(s4.(work := StartFile(s4.work, j)), multiset{}, f);
  }

  lemma ScheduleSharedLoadKeeps(s: State, j: JobId, queued: bool)
    requires Inv(s) && Schedulable(s.work, j) && !s.work.jobs[j].isStore && s.Cfg().sharePreload
    requires !(s.Cfg().hasCache && NextFile(s.work, j).hash in s.slots.cache.slots)
    requires Promotes(s, j) ==> queued
    ensures Inv(ScheduleSharedLoad(s, j, queued))
  {
    hide Sound, Claimable, HasInflight, ClaimShared, WaitForInflight, PromotePending, OpenForLoad, Decref, CanOpen;
    var h := NextFile(s.work, j).hash;
    if Claimable(s.slots, h).Some? {
      ClaimSharedKeeps(s, j, Claimable(s.slots, h).value);
    } else if HasInflight(s.demand, h) {
      WaitForInflightKeeps(s, j);
    } else if CanOpen(s) {
      if Count(s.demand.pendingCount, h) > 0 {
        PromotePendingKeeps(s, j);
      } else {
        OpenForLoadKeeps(s, j, queued);
        DecrefKeeps(OpenForLoad(s, j, queued), multiset{}, s.work.jobs[j].reqId, h);
      }
    }
  }

  lemma SchedulePrivateLoadKeeps(s: State, j: JobId, queued: bool)
    requires Inv(s) && Schedulable(s.work, j) && !s.work.jobs[j].isStore && !s.Cfg().sharePreload
    ensures Inv(SchedulePrivateLoad(s, j, queued))
  {
    hide Sound, HasPrivateCopy, HasInflight, ClaimPrivate, WaitForInflight, OpenForLoad, CancelOnePending, CanOpen, WaiterCount;
    var h := NextFile(s.work, j).hash;
    if HasPrivateCopy(s.slots, h) {
      ClaimPrivateKeeps(s, j);
    } else if HasInflight(s.demand, h) && WaiterCount(s.waiters, h) < Count(s.demand.inflightHashes, h) {
      WaitForInflightKeeps(s, j);
    } else if CanOpen(s) {
      OpenForLoadKeeps(s, j, queued);
      CancelKeeps(OpenForLoad(s, j, queued), multiset{}, h);
    }
  }

  lemma ScheduleLoadKeeps(s: State, j: JobId, queued: bool)
    requires Inv(s) && Schedulable(s.work, j) && !s.work.jobs[j].isStore && (Promotes(s, j) ==> queued)
    ensures Inv(ScheduleLoad(s, j, queued))
  {
    hide Sound, Promotes, CacheHit, ScheduleSharedLoad, SchedulePrivateLoad;
    var h := NextFile(s.work, j).hash;
    if s.Cfg().hasCache && h in s.slots.cache.slots {
      GetKeeps(s, multiset{}, h);
      CacheHitKeeps(s.(slots := s.slots.(cache := SC.Get(s.slots.cache, h).0)), j);
    } else if s.Cfg().sharePreload {
      ScheduleSharedLoadKeeps(s, j, queued);
    } else {
      SchedulePrivateLoadKeeps(s, j, queued);
    }
  }

  // ---------- Scheduling stores, reads and preloads ----------

  lemma StoreStarts(w: Work, j: JobId)
    requires Unfinished(w, j) && w.jobs[j].isStore
    ensures StartTokens(w, j) == multiset{TStore(NextFile(w, j).hash)}
  {
  }

  lemma ScheduleStoreCopyKeeps(s: State, j: JobId, x: Slot, launched: bool)
    requires Sound(s, BlankTokens(x)) && Schedulable(s.work, j) && s.work.jobs[j].isStore && HasDataBudget(s)
    ensures Inv(ScheduleStoreCopy(s, j, x, launched))
  {
    hide Sound, FileTokens, BlankTokens, StartFile, StartTokens, StoreFailed, PendingCopyTokens;
    var f := NextFile(s.work, j);
    StartFileKeeps(s, BlankTokens(x), j);
    StoreStarts(s.work, j);
    var s1 := s.(work := StartFile(s.work, j));
    var held := multiset{TStore(f.hash)} + FileTokens(f);
    assert BlankTokens(x) + FileTokens(f) + multiset{TStore(f.hash)} == held + BlankTokens(x);
    if launched {
      ClobberKeeps(s1, held, x);
      var s2 := s1.(memory := s1.memory - {x});
      TakeData(s2, held + BlankTokens(x));
      var s3 := s2.(ring := AddData(s2.ring, 1));
      StoreCopyTokens(f, x);
      Nothing(PendingCopyTokens(StoreCopy(f, x)));
      PushCopyKeeps(s3, multiset{}, StoreCopy(f, x));
    } else {
      Nothing(multiset{TStore(f.hash)});
      StoreFailedKeeps(s1, multiset{}, f, x);
    }
  }

  lemma ScheduleStoreKeeps(s: State, j: JobId, launched: bool)
    requires Inv(s) && Schedulable(s.work, j) && s.work.jobs[j].isStore && HasDataBudget(s)
    ensures Inv(ScheduleStore(s, j, launched))
  {
    hide Sound, ReserveForeground, ScheduleStoreCopy, BlankTokens;
    ReserveForegroundKeeps(s, multiset{});
    var (z, x) := ReserveForeground(s.slots);
    if x.Some? {
      Nothing(BlankTokens(x.value));
      ScheduleStoreCopyKeeps(s.(slots := z), j, x.value, launched);
    } else {
      assert s.(slots := z) == s;
    }
  }

  lemma SubmitReadLoadKeeps(s: State, f: FileRef, x: Slot, queued: bool, closed: bool)
    requires Sound(s, FileTokens(f) + BlankTokens(x)) && HasDataBudget(s)
    ensures Inv(SubmitReadLoad(s, f, x, queued, closed))
  {
    hide Sound, FileTokens, BlankTokens, OpTokens, FileTerminal, Release, AsyncClose, Refused;
    var held := FileTokens(f) + BlankTokens(x);
    Nothing(FileTokens(f));
    if queued {
      ClobberKeeps(s, FileTokens(f), x);
      var s1 := s.(memory := s.memory - {x});
      TakeData(s1, held);
      var s2 := s1.(ring := AddData(s1.ring, 1));
      OpTokensAre(s2.ring.nextUd, f, Info(0, 0), x);
      Nothing(OpTokens(s2.ring.nextUd, ReadLoad(f, x)));
      SubmitKeeps(s2, multiset{}, ReadLoad(f, x));
    } else {
      RefusedKeeps(s, held);
      var s1 := s.(ring := Refused(s.ring));
      AsyncCloseKeeps(s1, held, closed);
      var s2 := s1.(ring := AsyncClose(s1.ring, closed));
      ReleaseKeeps(s2, FileTokens(f), x);
      FileTerminalKeeps(s2.(slots := Release(s2.slots, x)), multiset{}, f, false);
    }
  }

  lemma DrainLoadFdKeeps(s: State, queued: bool, closed: bool)
    requires Inv(s) && s.ring.readyLoad != [] && HasDataBudget(s)
    ensures Inv(DrainLoadFd(s, queued, closed))
  {
    hide Sound, ReserveForeground, SubmitReadLoad, BlankTokens, FileTokens;
    ReserveForegroundKeeps(s, multiset{});
    var (z, x) := ReserveForeground(s.slots);
    if x.Some? {
      var s1 := s.(slots := z);
      Nothing(BlankTokens(x.value));
      PopReadyLoadKeeps(s1, BlankTokens(x.value));
      var f := s.ring.readyLoad[0];
      assert BlankTokens(x.value) + FileTokens(f) == FileTokens(f) + BlankTokens(x.value);
      SubmitReadLoadKeeps(s1.(ring := s1.ring.(readyLoad := s1.ring.readyLoad[1..])), f, x.value, queued, closed);
    } else {
      assert s.(slots := z) == s;
    }
  }

  lemma SubmitReadPreloadKeeps(s: State, info: Info, x: Slot, queued: bool, closed: bool)
    requires Sound(s, PreTokens(info.hash) + BlankTokens(x)) && HasDataBudget(s)
    ensures Inv(SubmitReadPreload(s, info, x, queued, closed))
  {
    hide Sound, PreTokens, BlankTokens, ServeTokens, OpTokens, FailWaiters, FailOneWaiter, Release, AsyncClose, Refused, InflightRemove, HasWaiter;
    var h, held := info.hash, PreTokens(info.hash) + BlankTokens(x);
    if queued {
      ClobberKeeps(s, PreTokens(h), x);
      var s1 := s.(memory := s.memory - {x});
      TakeData(s1, held);
      var s2 := s1.(ring := AddData(s1.ring, 1));
      OpTokensAre(s2.ring.nextUd, FileRef(0, 0, 0), info, x);
      Nothing(OpTokens(s2.ring.nextUd, ReadPreload(info, x)));
      SubmitKeeps(s2, multiset{}, ReadPreload(info, x));
    } else {
      RefusedKeeps(s, held);
      var s1 := s.(ring := Refused(s.ring));
      AsyncCloseKeeps(s1, held, closed);
      var s2 := s1.(ring := AsyncClose(s1.ring, closed));
      ReleaseKeeps(s2, PreTokens(h), x);
      ReleaseCfg(s2.slots, x);
      var s3 := s2.(slots := Release(s2.slots, x));
      Nothing(PreTokens(h));
      DeliverKeeps(s3, multiset{}, h);
      var s4 := s3.(demand := InflightRemove(s3.demand, h));
      NoWaits(h, x);
      if s.Cfg().sharePreload {
        Nothing(ServeTokens(h));
        ServeIn(multiset{}, h);
        FailWaitersKeeps(s4, ServeTokens(h), h);
        NobodyLeft(FailWaiters(s4, h), multiset{}, h);
      } else {
        FailOneKeeps(s4, multiset{}, h);
      }
    }
  }

  lemma ReadPreloadFdKeeps(s: State, r: (Slots, Option<Slot>), queued: bool, closed: bool)
    requires s.ring.readyPreload != [] && HasDataBudget(s) && r.0.cfg == s.slots.cfg
    requires if r.1.Some? then Sound(s.(slots := r.0), BlankTokens(r.1.value)) else Inv(s.(slots := r.0))
    ensures Inv(ReadPreloadFd(s, r, queued, closed))
  {
    hide Sound, SubmitReadPreload, BlankTokens, PreTokens, PopReadyPreload;
    if r.1.Some? {
      var s1 := s.(slots := r.0);
      PopReadyPreloadKeeps(s1, BlankTokens(r.1.value));
      var info := s.ring.readyPreload[0];
      assert BlankTokens(r.1.value) + PreTokens(info.hash) == PreTokens(info.hash) + BlankTokens(r.1.value);
      PopReadyData(s.ring);
      SubmitReadPreloadKeeps(s1.(ring := PopReadyPreload(s1.ring)), info, r.1.value, queued, closed);
    }
  }

  lemma PopReadyData(g: Ring)
    requires g.readyPreload != []
    ensures PopReadyPreload(g).dataInflight == g.dataInflight
  {
  }

  lemma YieldOpenFdKeeps(s: State, closed: bool)
    requires Inv(s) && s.ring.readyPreload != [] && !HasWaiter(s, s.ring.readyPreload[0].hash)
    ensures Inv(YieldOpenFd(s, closed))
  {
    hide Sound, PreTokens, ServeTokens, PopReadyPreload, InflightRemove, PendingPush, AsyncClose, HasWaiter, Total, Claims, Absent;
    var info := s.ring.readyPreload[0];
    var h := info.hash;
    PopReadyPreloadKeeps(s, multiset{});
    var s1 := s.(ring := PopReadyPreload(s.ring));
    SameWaitersRing(s, s1.ring);
    DeliverKeeps(s1, multiset{}, h);
    var s2 := s1.(demand := InflightRemove(s1.demand, h));
    SameWaiters(s1, s2.demand);
    InflightRemoveTotal(s1, h);
    NoWaits(h, 0);
    WaitsCounted(s1, h);
    Nothing(Total(s1));
    if s.Cfg().sharePreload {
      ServingAlone(s2, multiset{}, h);
      NothingElse(s2, multiset{}, h);
    }
    NobodyLeft(s2, multiset{}, h);
    PendingPushKeeps(s2, multiset{}, info);
    var s3 := s2.(demand := PendingPush(s2.demand, info));
    AsyncCloseKeeps(s3, multiset{}, closed);
  }

  lemma SameWaitersRing(s: State, g': Ring)
    ensures forall h: Hash :: HasWaiter(s.(ring := g'), h) == HasWaiter(s, h)
  {
  }

  lemma DrainPreloadFdKeeps(s: State, queued: bool, closed: bool)
    requires Inv(s) && s.ring.readyPreload != []
    ensures Inv(DrainPreloadFd(s, queued, closed))
  {
    hide Sound, ReserveForeground, ReservePreload, ReadPreloadFd, YieldOpenFd, HasWaiter, RealLoadPressure, BlankTokens;
    ReserveForegroundKeeps(s, multiset{});
    ReservePreloadKeeps(s, multiset{});
    var r, r' := ReserveForeground(s.slots), ReservePreload(s.slots);
    if r.1.Some? { Nothing(BlankTokens(r.1.value)); } else { assert s.(slots := r.0) == s; }
    if r'.1.Some? { Nothing(BlankTokens(r'.1.value)); }
    if HasWaiter(s, s.ring.readyPreload[0].hash) {
      if HasDataBudget(s) { ReadPreloadFdKeeps(s, r, queued, closed); }
    } else if RealLoadPressure(s) {
      YieldOpenFdKeeps(s, closed);
    } else if HasDataBudget(s) {
      ReadPreloadFdKeeps(s, r', queued, closed);
    }
  }

  /** With shared preloading a live entry of the pending queue is all there is of its hash. */
  lemma LivePendingAlone(s: State)
    requires Inv(s) && s.Cfg().sharePreload && s.demand.pending != [] && Count(s.demand.pendingCancel, s.demand.pending[0].hash) == 0
    ensures var s1, h := s.(demand := PendingPop(s.demand)), s.demand.pending[0].hash;
      && Absent(s1.slots, Total(s1) + multiset{}, h)
      && h !in s.demand.missing && h !in s.demand.blocked
  {
    hide SlotPart, FilePart, BudgetsOk, MissingOk, WaitersOk, Claims, Total;
    var h := s.demand.pending[0].hash;
    var t := Total(s) + multiset{};
    PendThere(s, multiset{});
    PendingPopKeeps(s, multiset{});
    assert t[TPend(h)] - Count(s.demand.pendingCancel, h) + t[TPre(h)] + t[TServe(h)] + Claims(s.slots, h) <= 1;
    assert !Absent(s.slots, t, h);
  }

  lemma SpeculateKeeps(s: State, queued: bool)
    requires Inv(s) && s.demand.pending != [] && CanOpen(s) && PreloadSlotsAvailable(s)
    ensures Inv(Speculate(s, queued))
  {
    hide Sound, DropCancelled, BlockOnWrite, PendingPop, SubmitOpenPreload, Absent, Total;
    var d, info := s.demand, s.demand.pending[0];
    var h := info.hash;
    var s1 := s.(demand := PendingPop(d));
    if Count(d.pendingCancel, h) > 0 {
      DropCancelledKeeps(s, multiset{});
    } else {
      CancelNatural(s, h);
      PendingPopKeeps(s, multiset{});
      if s.Cfg().sharePreload { LivePendingAlone(s); }
      PopFrame(d);
      if h in d.storeInflight {
        BlockKeeps(s1, multiset{}, h, [info]);
      } else {
        SpeculativeOpenKeeps(s1, info, queued);
      }
    }
  }

  lemma CancelNatural(s: State, h: Hash)
    requires Inv(s)
    ensures Count(s.demand.pendingCancel, h) >= 0
  {
    hide Total, SlotPart, FilePart, BudgetsOk, MissingOk, WaitersOk, Unique;
  }

  lemma PopFrame(d: Demand)
    requires d.pending != []
    ensures var d' := PendingPop(d);
      d'.storeInflight == d.storeInflight && d'.missing == d.missing && d'.blocked == d.blocked && d'.inflightTotal == d.inflightTotal
  {
  }

  lemma SpeculativeOpenKeeps(s: State, info: Info, queued: bool)
    requires Inv(s) && CanOpen(s) && PreloadSlotsAvailable(s)
    requires s.Cfg().sharePreload ==> Absent(s.slots, Total(s) + multiset{}, info.hash)
    requires s.Cfg().sharePreload ==> info.hash !in s.demand.missing && info.hash !in s.demand.blocked
    ensures Inv(SubmitOpenPreload(s, info, queued))
  {
    hide Sound, OpTokens, PreTokens, Total, Refused, InflightAdd, Claims;
    var h := info.hash;
    if queued {
      NoneServing(s, h);
      Nothing(Total(s));
      AbsentMayOpen(s, h);
      OpenPreloadKeeps(s, multiset{}, h);
      var s1 := s.(demand := InflightAdd(s.demand, h));
      Nothing(PreTokens(h));
      TakeOpen(s1, PreTokens(h));
      var s2 := s1.(ring := AddOpen(s1.ring, 1));
      OpTokensAre(s2.ring.nextUd, FileRef(0, 0, 0), info, 0);
      Nothing(OpTokens(s2.ring.nextUd, OpenPreload(info)));
      SubmitKeeps(s2, multiset{}, OpenPreload(info));
    } else {
      RefusedKeeps(s, multiset{});
    }
  }

  lemma AbsentMayOpen(s: State, h: Hash)
    requires Inv(s) && PreloadSlotsAvailable(s) && (Total(s) + multiset{})[TServing] == 0
    requires s.Cfg().sharePreload ==> Absent(s.slots, Total(s) + multiset{}, h) && h !in s.demand.missing && h !in s.demand.blocked
    ensures MayOpen(s.slots, s.demand, Total(s) + multiset{}, h)
    ensures s.Cfg().sharePreload ==> (Total(s) + multiset{})[TPend(h)] == 0
  {
    hide SlotPart, FilePart, BudgetsOk, MissingOk, WaitersOk, Claims, Total, Unique;
    assert Count(s.demand.pendingCancel, h) <= (Total(s) + multiset{})[TPend(h)];
  }
}
