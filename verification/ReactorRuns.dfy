/** Intake keeps the invariant, and with it every run does. */
module ReactorRuns {
  import opened Outcomes
  import opened OrderedKeys
  import opened ReactorState
  import opened ReactorSlots
  import opened Reactor
  import opened ReactorTokens
  import opened ReactorSlotSafety
  import opened ReactorFileSafety
  import opened ReactorDemandSafety
  import opened ReactorMoves
  import opened ReactorDemandMoves
  import opened ReactorSafety
  import SC = StagingCache

  // ---------- Intake ----------

  /** Nothing shared exists for the hash: its preload may be queued. */
  lemma NothingShared(s: State, h: Hash)
    requires Inv(s) && !HasAnySharedState(s.slots, s.demand, h)
    ensures Absent(s.slots, Total(s) + multiset{}, h) && h !in s.demand.missing && h !in s.demand.blocked
  {
    hide Sound, Total, SlotSound, Outside, Claimable, Claims;
    CountsAre(s, multiset{}, h);
    SlotNow(s, multiset{});
    ClaimableMeansClaimed(s.slots, s.memory, Outside(s) + multiset{}, h);
    NoneServing(s, h);
    Nothing(Total(s));
  }

  lemma IntakeDemandKeeps(s: State, r: ReqId, h: Hash)
    requires Inv(s)
    ensures Inv(IntakeDemand(s, r, h))
  {
    hide Sound, Total, HasAnySharedState, PendingPush, AddMissing, Absent, Raise, Suffix, DemandCounted;
    var z, d := s.slots, s.demand;
    if !(z.cfg.hasCache && h in z.cache.slots) && (r, h) !in z.owned {
      var owned := Suffix(z.owned + [(r, h)], MAX_PRELOAD_OWNED);
      if z.cfg.sharePreload {
        RaiseCounts(z.refcount, h);
        CountedIn(s, multiset{});
        JoinedCounts(z.owned, z.refcount, r, h, MAX_PRELOAD_OWNED);
        OwnKeeps(s, multiset{}, owned, Raise(z.refcount, h));
        var s1 := s.(slots := z.(owned := owned, refcount := Raise(z.refcount, h)));
        if !HasAnySharedState(s1.slots, d, h) {
          NothingShared(s1, h);
          PendingPushKeeps(s1, multiset{}, Info(h, r));
        }
      } else {
        OwnKeeps(s, multiset{}, owned, z.refcount);
        var s1 := s.(slots := z.(owned := owned, refcount := z.refcount));
        assert s1.slots == z.(owned := owned);
        if h in d.missing {
          JoinMissingKeeps(s1, multiset{}, Info(h, r));
        } else {
          PendingPushKeeps(s1, multiset{}, Info(h, r));
        }
      }
    }
  }

  lemma {:induction false} IntakePreloadKeeps(s: State, r: ReqId, hs: seq<Hash>)
    requires Inv(s)
    ensures Inv(IntakePreload(s, r, hs))
    decreases |hs|
  {
    hide Sound, IntakeDemand;
    if hs != [] {
      IntakePreloadKeeps(s, r, hs[..|hs| - 1]);
      IntakeDemandKeeps(IntakePreload(s, r, hs[..|hs| - 1]), r, hs[|hs| - 1]);
    }
  }

  lemma NewJobOk(isStore: bool, r: ReqId, hs: seq<Hash>)
    requires hs != []
    ensures JobOk(NewJob(isStore, r, hs), 0, 0, 0)
    ensures JobOk(NewJob(false, r, hs).(futureSet := true, outcomes := [Declined]), 0, 0, 0)
    ensures JobTokens(NewJob(false, r, hs)) == multiset{}
    ensures JobTokens(NewJob(false, r, hs).(futureSet := true, outcomes := [Declined])) == multiset{}
    ensures JobTokens(NewJob(true, r, hs)) == Flat(hs, StoreTokens)
  {
    hide Flat;
    assert hs[0..] == hs;
    assert [Declined] != [Failed] && [Declined] != [Succeeded];
  }

  lemma IntakeLoadKeeps(s: State, r: ReqId, hs: seq<Hash>, declined: bool)
    requires Inv(s) && hs != []
    ensures Inv(IntakeLoad(s, r, hs, declined))
  {
    hide Sound, JobTokens, JobOk, ForgetAllMissing;
    NewJobOk(false, r, hs);
    Nothing(multiset{});
    if declined {
      NewJobKeeps(s, multiset{}, NewJob(false, r, hs).(futureSet := true, outcomes := [Declined]), false);
    } else {
      ForgetAllMissingKeeps(s, multiset{}, hs);
      NewJobKeeps(s.(demand := ForgetAllMissing(s.demand, hs)), multiset{}, NewJob(false, r, hs), true);
    }
  }

  lemma {:induction false} NotOfSubset(infos: seq<Info>, r: ReqId, h: Hash)
    requires AllFor(infos, h)
    ensures AllFor(NotOf(infos, r), h)
  {
    if infos != [] { NotOfSubset(infos[..|infos| - 1], r, h); }
  }

  lemma OneParked(s: State, held: multiset<Token>)
    requires Sound(s, held) && s.Cfg().sharePreload
    ensures OneMark(s.demand.missing) && OneMark(s.demand.blocked)
    ensures forall h :: h in s.demand.missing ==> h !in s.demand.blocked
  {
    hide Total, SlotPart, FilePart, BudgetsOk, MissingOk, CountsOk, WaitersOk, Absent;
  }

  lemma RearmFor(s: State, held: multiset<Token>, refcount: map<Hash, int>, producer: ReqId, h: Hash)
    requires Sound(s, held)
    ensures var rearm := Rearm(s.demand, refcount, s.Cfg().sharePreload, producer, h);
      && AllFor(rearm, h) && (rearm != [] ==> h in s.demand.missing)
      && (s.Cfg().sharePreload && rearm != [] ==> |rearm| == 1 && h !in s.demand.blocked)
  {
    hide Sound;
    ParkedFor(s, held, h);
    if s.Cfg().sharePreload { OneParked(s, held); }
    if h in s.demand.missing { NotOfSubset(s.demand.missing[h], producer, h); }
  }

  lemma ForgottenIsGone(z: Slots, d: Demand, t: multiset<Token>, h: Hash)
    requires DemandPart(z, d, t)
    ensures h !in ForgetMissing(d, h).missing && ForgetMissing(d, h).pending == d.pending && ForgetMissing(d, h).blocked == d.blocked
  {
  }

  lemma AnnounceStoreKeeps(s: State, held: multiset<Token>, producer: ReqId, h: Hash)
    requires Sound(s, held)
    ensures Sound(AnnounceStore(s, producer, h), held + multiset{TStore(h)})
  {
    hide Sound, Total, DemandPart, Decref, ForgetMissing, BlockOnWrite, Raise, Rearm, Absent;
    var z := if s.Cfg().sharePreload then Decref(s.slots, producer, h) else s.slots;
    var s1 := s.(slots := z);
    if s.Cfg().sharePreload {
      DecrefKeeps(s, held, producer, h);
      DecrefCfg(s, held, producer, h);
    } else {
      assert s1 == s;
    }
    RearmFor(s, held, z.refcount, producer, h);
    var rearm := Rearm(s.demand, z.refcount, s.Cfg().sharePreload, producer, h);
    ForgetMissingKeeps(s1, held, h);
    var s2 := s1.(demand := ForgetMissing(s1.demand, h));
    if rearm == [] {
      AnnounceKeeps(s2, held, h);
    } else {
      DemandNow(s1, held);
      ForgottenIsGone(s1.slots, s1.demand, Total(s1) + held, h);
      DemandTotal(s1, s2.demand);
      if s1.Cfg().sharePreload { ParkedAbsent(s1, held, h); }
      AnnounceBlockedKeeps(s2, held, h, rearm);
    }
  }

  lemma DecrefCfg(s: State, held: multiset<Token>, r: ReqId, h: Hash)
    requires Sound(s, held)
    ensures Decref(s.slots, r, h).cfg == s.slots.cfg
  {
    hide Sound, SlotSound, Outside, ClaimsShrink, Decref;
    SlotNow(s, held);
    DecrefSound(s.slots, s.memory, Outside(s) + held, r, h);
    ShrinkCfg(s.slots, Decref(s.slots, r, h));
  }

  lemma {:induction false} AnnounceStoresKeeps(s: State, r: ReqId, hs: seq<Hash>)
    requires Inv(s)
    ensures Sound(AnnounceStores(s, r, hs), Flat(hs, StoreTokens))
    decreases |hs|
  {
    hide Sound, AnnounceStore;
    if hs != [] {
      var front, h := hs[..|hs| - 1], hs[|hs| - 1];
      AnnounceStoresKeeps(s, r, front);
      AnnounceStoreKeeps(AnnounceStores(s, r, front), Flat(front, StoreTokens), r, h);
    }
  }

  lemma IntakeStoreKeeps(s: State, r: ReqId, hs: seq<Hash>)
    requires Inv(s) && hs != []
    ensures Inv(IntakeStore(s, r, hs))
  {
    hide Sound, JobTokens, JobOk, AnnounceStores, Flat;
    AnnounceStoresKeeps(s, r, hs);
    NewJobOk(true, r, hs);
    Nothing(Flat(hs, StoreTokens));
    NewJobKeeps(AnnounceStores(s, r, hs), multiset{}, NewJob(true, r, hs), true);
  }

  // ---------- Runs ----------

  /** Each step keeps the invariant, whatever the environment answers. */
  lemma StepKeeps(s: State, e: Event)
    requires Inv(s) && Enabled(s, e)
    ensures Inv(Step(s, e))
  {
    hide Inv, IntakePreload, IntakeLoad, IntakeStore, CopyDone, OpCompletes, ScheduleLoad, ScheduleStore, DrainLoadFd, DrainPreloadFd,
      DropCancelled, Speculate, FlushCopies, Schedulable, Promotes, HasDataBudget, RealLoadPressure, CanOpen, PreloadSlotsAvailable;
    match e
    case PreloadRequest(r, hs) => IntakePreloadKeeps(s, r, hs);
    case LoadRequest(r, hs, declined) => IntakeLoadKeeps(s, r, hs, declined);
    case StoreRequest(r, hs) => IntakeStoreKeeps(s, r, hs);
    case CopyCompletion(k, tempOk, queued) => CopyDoneKeeps(s, k, tempOk, queued);
    case OpCompletion(ud, ok, closed) => OpCompletesKeeps(s, ud, ok, closed);
    case LoadNext(j, queued) => ScheduleLoadKeeps(s, j, queued);
    case StoreNext(j, launched) => ScheduleStoreKeeps(s, j, launched);
    case ReadLoadFd(queued, closed) => DrainLoadFdKeeps(s, queued, closed);
    case PreloadFd(queued, closed) => DrainPreloadFdKeeps(s, queued, closed);
    case CancelledPending => DropNowKeeps(s);
    case SpeculativeOpen(queued) => SpeculateKeeps(s, queued);
    case Flush(launched) => FlushKeeps(s, launched);
    case Finish => FinishNowKeeps(s);
  }

  lemma DropNowKeeps(s: State)
    requires Inv(s) && s.demand.pending != [] && Count(s.demand.pendingCancel, s.demand.pending[0].hash) > 0
    ensures Inv(s.(demand := DropCancelled(s.demand)))
  {
    hide Sound;
    DropCancelledKeeps(s, multiset{});
  }

  lemma FinishNowKeeps(s: State)
    requires Inv(s)
    ensures Inv(s.(work := s.work.(active := Remaining(s.work, s.work.active))))
  {
    hide Sound;
    FinishKeeps(s, multiset{});
  }

  lemma {:induction false} RunKeeps(s: State, es: seq<Event>)
    requires Inv(s) && IsRun(s, es)
    ensures Inv(After(s, es))
    decreases |es|
  {
    hide Inv, Step, Enabled;
    if es != [] {
      RunKeeps(s, es[..|es| - 1]);
      StepKeeps(After(s, es[..|es| - 1]), es[|es| - 1]);
    }
  }

  // ---------- The start ----------

  lemma {:induction false} FreshSlots(n: nat)
    ensures OnlyFree(n, Flat(seq(n, i => i), BlankTokens))
  {
    hide Flat, OnlyFree;
    if n == 0 {
      FreshNone();
    } else {
      FreshSlots(n - 1);
      FreshLast(n);
      FreeNext(n, Flat(seq(n - 1, i => i), BlankTokens));
    }
  }

  lemma FreshNone()
    ensures OnlyFree(0, Flat(seq(0, i => i), BlankTokens))
  {
    assert Flat(seq(0, i => i), BlankTokens) == multiset{};
  }

  lemma FreeNext(n: nat, t: multiset<Token>)
    requires n > 0 && OnlyFree(n - 1, t)
    ensures OnlyFree(n, t + BlankTokens(n - 1))
  {
  }

  lemma FreshLast(n: nat)
    requires n > 0
    ensures Flat(seq(n, i => i), BlankTokens) == Flat(seq(n - 1, i => i), BlankTokens) + BlankTokens(n - 1)
  {
    var s := seq(n, i => i);
    assert s[..n - 1] == seq(n - 1, i => i);
  }

  /** A cache that has just been built, or that is not used. */
  ghost predicate EmptyCache(c: SC.Cache) {
    SC.Agree(c) && c.slots == map[]
  }

  lemma InitialTotal(cfg: Config, cache: SC.Cache)
    requires EmptyCache(cache)
    ensures Total(Initial(cfg, cache)) == Flat(seq(cfg.slotCount, i => i), BlankTokens)
  {
  }

  lemma InitialInv(cfg: Config, cache: SC.Cache)
    requires EmptyCache(cache)
    ensures Inv(Initial(cfg, cache))
  {
    InitialTotal(cfg, cache);
    FreshSlots(cfg.slotCount);
    hide Total, Flat, SlotPart, FilePart, BudgetsOk, DemandPart;
    var t := Total(Initial(cfg, cache));
    Nothing(t);
    InitialSlots(cfg, cache, t);
    InitialRest(cfg, cache, t);
  }

  /** Only slots, all of them free. */
  ghost predicate OnlyFree(n: nat, t: multiset<Token>) {
    && (forall x: Slot :: t[TSlot(x)] == t[TBlank(x)] == if 0 <= x < n then 1 else 0)
    && (forall k: Token :: k in t ==> k.TSlot? || k.TBlank?)
  }

  lemma InitialSlots(cfg: Config, cache: SC.Cache, t: multiset<Token>)
    requires EmptyCache(cache) && OnlyFree(cfg.slotCount, t)
    ensures SlotPart(Initial(cfg, cache).slots, map[], t)
  {
    hide SC.Agree;
    assert forall k: Token :: !k.TSlot? && !k.TBlank? ==> t[k] == 0;
  }

  lemma InitialRest(cfg: Config, cache: SC.Cache, t: multiset<Token>)
    requires EmptyCache(cache) && OnlyFree(cfg.slotCount, t)
    ensures var s := Initial(cfg, cache);
      FilePart(s.work, t) && BudgetsOk(cfg, s.ring, t) && DemandPart(s.slots, s.demand, t)
  {
    hide SC.Agree, JobOk, DemandPart;
    OnlyFreeLacks(cfg.slotCount, t);
    InitialDemand(cfg, cache, t);
  }

  lemma OnlyFreeLacks(n: nat, t: multiset<Token>)
    requires OnlyFree(n, t)
    ensures forall k: Token :: !k.TSlot? && !k.TBlank? ==> t[k] == 0
  {
  }

  lemma InitialDemand(cfg: Config, cache: SC.Cache, t: multiset<Token>)
    requires forall k: Token :: !k.TSlot? && !k.TBlank? ==> t[k] == 0
    ensures var s := Initial(cfg, cache); DemandPart(s.slots, s.demand, t)
  {
    hide SC.Agree;
  }

  /** Every state of every run is consistent. */
  lemma Reachable(cfg: Config, cache: SC.Cache, es: seq<Event>)
    requires EmptyCache(cache) && IsRun(Initial(cfg, cache), es)
    ensures Inv(After(Initial(cfg, cache), es))
  {
    hide Inv, IsRun, After, Initial, EmptyCache;
    InitialInv(cfg, cache);
    RunKeeps(Initial(cfg, cache), es);
  }
}
